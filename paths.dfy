/** Output-path resolution: the POSIX path helpers the tools call, the extension rule of
    the advanced tool and the default temporary destination. */
module Paths {
  import opened Request

  /** Python's `s.endswith(suffix)`. */
  predicate EndsWith(s: string, suffix: string) {
    |suffix| <= |s| && s[|s| - |suffix|..] == suffix
  }

  lemma EndsWithTransitive(s: string, t: string, u: string)
    requires EndsWith(s, t) && EndsWith(t, u)
    ensures EndsWith(s, u)
  {
  }

  lemma EndsWithConcat(s: string, t: string)
    ensures EndsWith(s + t, t)
  {
  }

  /** The `"." + format` suffix the advanced tool enforces. */
  function Dot(f: Format): string {
    "." + f.Name()
  }

  /** The advanced tool's rule for a caller-supplied path: append `.<format>` unless the path
      already ends with it. The caller's text is kept as a prefix (an existing other
      extension is not replaced), and the result always carries the suffix. */
  function WithExtension(p: string, f: Format): (r: string)
    ensures EndsWith(r, Dot(f))
    ensures |p| <= |r| && r[..|p|] == p
    ensures r == p <==> EndsWith(p, Dot(f))
    ensures r != p ==> r == p + Dot(f)
  {
    if EndsWith(p, Dot(f)) then p
    else
      EndsWithConcat(p, Dot(f));
      p + Dot(f)
  }

  /** Applying the rule a second time changes nothing. */
  lemma WithExtensionIdempotent(p: string, f: Format)
    ensures WithExtension(WithExtension(p, f), f) == WithExtension(p, f)
  {
  }

  /** "a.wav" asked for as mp3 becomes "a.wav.mp3"; "audio" asked for as wav becomes "audio.wav". */
  lemma WithExtensionExamples()
    ensures WithExtension("a.wav", Mp3) == "a.wav.mp3"
    ensures WithExtension("audio", Wav) == "audio.wav"
    ensures WithExtension("out.pcm", Pcm) == "out.pcm"
  {
    assert Dot(Mp3) == ".mp3" && Dot(Wav) == ".wav" && Dot(Pcm) == ".pcm";
    assert !EndsWith("a.wav", ".mp3") by { assert "a.wav"[1..][1] == 'w' != ".mp3"[1]; }
    assert !EndsWith("audio", ".wav") by { assert "audio"[1..][0] == 'u' != ".wav"[0]; }
    assert EndsWith("out.pcm", ".pcm") by { assert "out.pcm"[3..] == ".pcm"; }
  }

  /** Python's `str(n)` for an integer: decimal digits with a leading '-' when negative. */
  function IntToDecimal(n: int): (r: string)
    ensures r != [] && '/' !in r
    ensures forall k :: 0 < k < |r| ==> '0' <= r[k] <= '9'
    ensures r[0] == '-' <==> n < 0
    ensures r[0] != '-' ==> '0' <= r[0] <= '9'
  {
    if n < 0 then "-" + NatToDecimal(-n) else NatToDecimal(n)
  }

  /** The decimal digits of a natural number, most significant first, without leading zeros. */
  function NatToDecimal(n: nat): (r: string)
    ensures r != []
    ensures forall k :: 0 <= k < |r| ==> '0' <= r[k] <= '9'
    ensures |r| > 1 ==> r[0] != '0'
  {
    if n < 10 then [DigitChar(n)] else NatToDecimal(n / 10) + [DigitChar(n % 10)]
  }

  function DigitChar(d: nat): (c: char)
    requires d < 10
    ensures '0' <= c <= '9' && c as int - '0' as int == d
  {
    "0123456789"[d]
  }

  /** The number a string of decimal digits denotes. */
  function DecimalValue(s: string): nat
    requires forall k :: 0 <= k < |s| ==> '0' <= s[k] <= '9'
  {
    if s == [] then 0 else DecimalValue(s[..|s| - 1]) * 10 + (s[|s| - 1] as int - '0' as int)
  }

  /** The digits denote the number they were produced from. */
  lemma {:induction false} NatToDecimalValue(n: nat)
    ensures DecimalValue(NatToDecimal(n)) == n
  {
    var r := NatToDecimal(n);
    if n >= 10 {
      NatToDecimalValue(n / 10);
      assert r[..|r| - 1] == NatToDecimal(n / 10);
    }
  }

  /** str(n) denotes n: its digits give |n|, and a leading '-' marks a negative n. */
  lemma IntToDecimalValue(n: int)
    ensures var r := IntToDecimal(n);
      if r[0] == '-' then DecimalValue(r[1..]) == -n else DecimalValue(r) == n
  {
    if n < 0 {
      NatToDecimalValue(-n);
      assert IntToDecimal(n)[1..] == NatToDecimal(-n);
    } else {
      NatToDecimalValue(n);
    }
  }

  /** str(n) is canonical: no leading zero, neither after a '-' nor in a multi-digit
      non-negative number. */
  lemma IntToDecimalCanonical(n: int)
    ensures var r := IntToDecimal(n);
      (n >= 0 && |r| > 1 ==> r[0] != '0') && (n < 0 ==> |r| > 1 && r[1] != '0')
  {
    if n < 0 {
      NatToDecimalValue(-n);
      var d := NatToDecimal(-n);
      assert IntToDecimal(n) == "-" + d;
      if |d| == 1 {
        assert d[0] != '0' by { assert DecimalValue(d) == d[0] as int - '0' as int; }
      }
    }
  }

  /** posixpath.join(a, b): `b` when it is absolute, `a + b` when `a` is empty or ends with
      '/', otherwise `a + "/" + b`. */
  function Join(a: string, b: string): (r: string)
    ensures b != [] && b[0] == '/' ==> r == b
    ensures (b == [] || b[0] != '/') ==> r == a + b || r == a + "/" + b
  {
    if b != [] && b[0] == '/' then b
    else if a == [] || a[|a| - 1] == '/' then a + b
    else a + "/" + b
  }

  lemma JoinEndsWithName(a: string, b: string)
    ensures EndsWith(Join(a, b), b)
  {
  }

  /** The index just after the last '/' of `p`, or 0 when `p` has none: Python's
      `p.rfind('/') + 1`. */
  function SlashEnd(p: string): (i: nat)
    ensures i <= |p|
    ensures i > 0 ==> p[i - 1] == '/'
    ensures forall k :: i <= k < |p| ==> p[k] != '/'
  {
    if p == [] then 0
    else if p[|p| - 1] == '/' then |p|
    else SlashEnd(p[..|p| - 1])
  }

  predicate AllSlashes(s: string) {
    forall k :: 0 <= k < |s| ==> s[k] == '/'
  }

  /** Python's `s.rstrip('/')`: the longest prefix of `s` that does not end with '/'. */
  function StripTrailingSlashes(s: string): (r: string)
    ensures |r| <= |s| && r == s[..|r|]
    ensures r == [] || r[|r| - 1] != '/'
    ensures forall k :: |r| <= k < |s| ==> s[k] == '/'
  {
    if s != [] && s[|s| - 1] == '/' then StripTrailingSlashes(s[..|s| - 1]) else s
  }

  /** posixpath.dirname(p): everything up to the last '/', with the trailing slashes removed
      unless that part consists of slashes only. */
  function Dirname(p: string): (r: string)
    ensures |r| <= |p| && r == p[..|r|]
    ensures '/' !in p ==> r == ""
    ensures r != "" ==> '/' in p
  {
    var head := p[..SlashEnd(p)];
    if head != [] && !AllSlashes(head) then StripTrailingSlashes(head) else head
  }

  /** A directory as dirname reports it back: unchanged when empty or all slashes,
      otherwise without trailing slashes. */
  function ParentForm(dir: string): string {
    if dir == [] || AllSlashes(dir) then dir else StripTrailingSlashes(dir)
  }

  /** For a plain file name (non-empty, no '/'), the parent of `Join(dir, name)` is `dir`
      itself, up to trailing slashes. */
  lemma DirnameOfJoin(dir: string, name: string)
    requires name != [] && '/' !in name
    ensures Dirname(Join(dir, name)) == ParentForm(dir)
  {
    assert name[0] != '/';
    var p := Join(dir, name);
    if dir == [] {
      assert p == name;
    } else if dir[|dir| - 1] == '/' {
      assert p == dir + name;
      SlashEndAt(dir, name);
      assert p[..|dir|] == dir;
    } else {
      assert p == (dir + "/") + name;
      SlashEndAt(dir + "/", name);
      assert p[..|dir| + 1] == dir + "/";
      assert !AllSlashes(dir + "/") by { assert (dir + "/")[|dir| - 1] != '/'; }
      assert StripTrailingSlashes(dir + "/") == StripTrailingSlashes(dir) by {
        assert (dir + "/")[..|dir|] == dir;
      }
      assert !AllSlashes(dir) by { assert dir[|dir| - 1] != '/'; }
    }
  }

  /** When `a` ends with '/' and no '/' follows, the last '/' of `a + b` is the end of `a`. */
  lemma SlashEndAt(a: string, b: string)
    requires a != [] && a[|a| - 1] == '/' && '/' !in b
    ensures SlashEnd(a + b) == |a|
  {
    var p := a + b;
    assert p[|a| - 1] == '/';
    assert forall k :: |a| <= k < |p| ==> p[k] == b[k - |a|];
  }

  /** The file name used when no destination is given: "tts_output_" + str(hash) + "." + format. */
  function DefaultName(hash: int, f: Format): (name: string)
    ensures name != [] && '/' !in name
    ensures EndsWith(name, Dot(f))
  {
    EndsWithConcat("tts_output_" + IntToDecimal(hash), Dot(f));
    "tts_output_" + IntToDecimal(hash) + Dot(f)
  }

  /** The default destination: the temporary directory joined with the default name. */
  function DefaultPath(tempDir: string, hash: int, f: Format): (p: string)
    ensures EndsWith(p, Dot(f))
    ensures Dirname(p) == ParentForm(tempDir)
  {
    var name := DefaultName(hash, f);
    JoinEndsWithName(tempDir, name);
    EndsWithTransitive(Join(tempDir, name), name, Dot(f));
    DirnameOfJoin(tempDir, name);
    Join(tempDir, name)
  }
}
