/** Strings as sequences of runes, with the few library operations the client relies on. */
module Text {

  datatype Option<+T> = None | Some(value: T)

  /** Unicode white space, as Go's unicode.IsSpace lists it. */
  predicate IsSpace(c: char) {
    var u := c as int;
    || 9 <= u <= 13 || u == 0x20 || u == 0x85 || u == 0xA0 || u == 0x1680
    || 0x2000 <= u <= 0x200A || u == 0x2028 || u == 0x2029 || u == 0x202F
    || u == 0x205F || u == 0x3000
  }

  /** The white space of Unicode, rune by rune. */
  const WHITE_SPACE: string :=
    "\U{0009}\U{000A}\U{000B}\U{000C}\U{000D}\U{0020}\U{0085}\U{00A0}\U{1680}" +
    "\U{2000}\U{2001}\U{2002}\U{2003}\U{2004}\U{2005}\U{2006}\U{2007}\U{2008}\U{2009}\U{200A}" +
    "\U{2028}\U{2029}\U{202F}\U{205F}\U{3000}"

  lemma SpacesAreListed(c: char)
    ensures IsSpace(c) <==> c in WHITE_SPACE
  {}

  /** Every rune is white space (also true of the empty string). */
  predicate Blank(s: string) {
    forall i :: 0 <= i < |s| ==> IsSpace(s[i])
  }

  function TrimLeft(s: string): string {
    if s != "" && IsSpace(s[0]) then TrimLeft(s[1..]) else s
  }

  function TrimRight(s: string): string {
    if s != "" && IsSpace(s[|s| - 1]) then TrimRight(s[..|s| - 1]) else s
  }

  /** strings.TrimSpace */
  function Trim(s: string): string {
    TrimRight(TrimLeft(s))
  }

  /** The bytes one rune takes in UTF-8. */
  function RuneSize(c: char): (n: nat)
    ensures 1 <= n <= 4
  {
    var u := c as int;
    if u < 0x80 then 1 else if u < 0x800 then 2 else if u < 0x10000 then 3 else 4
  }

  /** len(s) in Go: the number of UTF-8 bytes. */
  function Size(s: string): nat {
    if s == "" then 0 else Size(s[..|s| - 1]) + RuneSize(s[|s| - 1])
  }

  /** The runes of s that are not white space, in order. */
  function Inked(s: string): string {
    if s == "" then "" else
      Inked(s[..|s| - 1]) + if IsSpace(s[|s| - 1]) then "" else [s[|s| - 1]]
  }

  function Join(parts: seq<string>): string {
    if parts == [] then "" else Join(parts[..|parts| - 1]) + parts[|parts| - 1]
  }

  lemma Regroup<X>(x: seq<X>, y: seq<X>, z: seq<X>)
    ensures x + y + z == x + (y + z)
  {}

  lemma JoinOne(s: string)
    ensures Join([s]) == s && Join([]) == ""
  {
    assert [s][..0] == [];
  }

  lemma {:induction false} JoinAppend(a: seq<string>, b: seq<string>)
    ensures Join(a + b) == Join(a) + Join(b)
  {
    if b == [] {
      assert a + b == a;
    } else {
      var n := |b| - 1;
      assert (a + b)[..|a + b| - 1] == a + b[..n];
      JoinAppend(a, b[..n]);
      Regroup(Join(a), Join(b[..n]), b[n]);
    }
  }

  lemma {:induction false} InkedAppend(a: string, b: string)
    ensures Inked(a + b) == Inked(a) + Inked(b)
  {
    if b == "" {
      assert a + b == a;
    } else {
      var n := |b| - 1;
      assert (a + b)[..|a + b| - 1] == a + b[..n];
      InkedAppend(a, b[..n]);
      Regroup(Inked(a), Inked(b[..n]), if IsSpace(b[n]) then "" else [b[n]]);
    }
  }

  lemma {:induction false} SizeAppend(a: string, b: string)
    ensures Size(a + b) == Size(a) + Size(b)
  {
    if b == "" {
      assert a + b == a;
    } else {
      var n := |b| - 1;
      assert (a + b)[..|a + b| - 1] == a + b[..n];
      SizeAppend(a, b[..n]);
    }
  }

  lemma {:induction false} TrimLeftIsSuffix(s: string)
    ensures |TrimLeft(s)| <= |s| && TrimLeft(s) == s[|s| - |TrimLeft(s)|..]
    ensures Inked(TrimLeft(s)) == Inked(s)
    ensures TrimLeft(s) == "" <==> Blank(s)
    ensures TrimLeft(s) != "" ==> !IsSpace(TrimLeft(s)[0])
  {
    if s != "" && IsSpace(s[0]) {
      TrimLeftIsSuffix(s[1..]);
      assert s == [s[0]] + s[1..];
      InkedAppend([s[0]], s[1..]);
      assert Inked([s[0]]) == "";
    }
  }

  lemma {:induction false} TrimRightIsPrefix(s: string)
    ensures TrimRight(s) <= s
    ensures Inked(TrimRight(s)) == Inked(s)
    ensures TrimRight(s) == "" <==> Blank(s)
  {
    if s != "" && IsSpace(s[|s| - 1]) {
      TrimRightIsPrefix(s[..|s| - 1]);
    }
  }

  /** What trimming keeps: no more runes, all of them from s, and every visible one. */
  lemma TrimFacts(s: string)
    ensures |Trim(s)| <= |s|
    ensures forall c :: c in Trim(s) ==> c in s
    ensures Inked(Trim(s)) == Inked(s)
    ensures Trim(s) == "" <==> Blank(s)
  {
    TrimLeftIsSuffix(s);
    TrimRightIsPrefix(TrimLeft(s));
  }

  /** Trimming cuts blanks off both ends and stops at ink. */
  lemma TrimCutsTheEnds(s: string) returns (i: nat, j: nat)
    ensures i <= j <= |s| && Trim(s) == s[i..j] && Blank(s[..i]) && Blank(s[j..])
    ensures i < j ==> !IsSpace(s[i]) && !IsSpace(s[j - 1])
  {
    var left := TrimLeft(s);
    TrimLeftIsSuffix(s);
    TrimLeftCuts(s);
    TrimRightIsPrefix(left);
    TrimRightCuts(left);
    i := |s| - |left|;
    j := i + |Trim(s)|;
    assert s[j..] == left[|Trim(s)|..];
    assert i < j ==> s[i] == left[0] && s[j - 1] == left[|Trim(s)| - 1];
  }

  lemma {:induction false} TrimLeftCuts(s: string)
    ensures |TrimLeft(s)| <= |s| && Blank(s[..|s| - |TrimLeft(s)|])
  {
    if s != "" && IsSpace(s[0]) {
      TrimLeftCuts(s[1..]);
      TrimLeftIsSuffix(s[1..]);
      var n := |s| - |TrimLeft(s)|;
      forall k | 0 <= k < n ensures IsSpace(s[k]) {
        assert k > 0 ==> s[k] == s[1..][..n - 1][k - 1];
      }
    }
  }

  lemma {:induction false} TrimRightCuts(s: string)
    ensures |TrimRight(s)| <= |s| && Blank(s[|TrimRight(s)|..])
    ensures TrimRight(s) == "" || !IsSpace(TrimRight(s)[|TrimRight(s)| - 1])
  {
    if s != "" && IsSpace(s[|s| - 1]) {
      var init := s[..|s| - 1];
      TrimRightCuts(init);
      var n := |TrimRight(s)|;
      forall k | n <= k < |s| ensures IsSpace(s[k]) {
        assert k < |s| - 1 ==> s[k] == init[n..][k - n];
      }
    }
  }

  /** The runes of s from a code on. */
  function From(s: string, code: nat): nat {
    if s == "" then 0 else From(s[..|s| - 1], code) + if s[|s| - 1] as int >= code then 1 else 0
  }

  /** A rune is one byte, and one more from U+0080, from U+0800 and from U+10000 on. */
  lemma {:induction false} SizeCounts(s: string)
    ensures Size(s) == |s| + From(s, 0x80) + From(s, 0x800) + From(s, 0x10000)
  {
    if s != "" {
      SizeCounts(s[..|s| - 1]);
    }
  }

  /** A trailing blank never survives trimming. */
  lemma TrimDropsLast(s: string, c: char)
    requires IsSpace(c)
    ensures Trim(s + [c]) == Trim(s)
  {
    TrimLeftAppend(s, c);
    TrimLeftIsSuffix(s);
    if !Blank(s) {
      var t := TrimLeft(s) + [c];
      assert t[..|t| - 1] == TrimLeft(s);
    }
  }

  lemma {:induction false} TrimLeftAppend(s: string, c: char)
    requires IsSpace(c)
    ensures TrimLeft(s + [c]) == if Blank(s) then "" else TrimLeft(s) + [c]
  {
    if s == "" {
      assert [c][1..] == "";
    } else if IsSpace(s[0]) {
      assert (s + [c])[1..] == s[1..] + [c];
      TrimLeftAppend(s[1..], c);
    }
  }
}
