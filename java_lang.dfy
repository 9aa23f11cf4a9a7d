/** The few `java.lang` string and boolean routines the web layer relies on:
    nullable values, `Boolean.parseBoolean`, `Boolean.toString`, `String.trim`
    and `String.split(",")`, each with the exact edge cases of the JDK. */
module JavaLang {

  /** A Java reference that may be `null`. */
  datatype Option<+T> = None | Some(value: T)

  // ---------------------------------------------------------------------
  // Booleans
  // ---------------------------------------------------------------------

  function LowerAscii(c: char): char {
    if 'A' <= c <= 'Z' then (c as int - 'A' as int + 'a' as int) as char else c
  }

  /** `s` with every ASCII capital letter in lower case. */
  function LowerAsciiString(s: string): (r: string)
    ensures |r| == |s| && forall k :: 0 <= k < |s| ==> r[k] == LowerAscii(s[k])
  {
    seq(|s|, k requires 0 <= k < |s| => LowerAscii(s[k]))
  }

  /** `Boolean.parseBoolean(s)` for a non-null `s`: `s.equalsIgnoreCase("true")`,
      checked letter by letter. Only ASCII letters fold onto the letters of
      "true", so ASCII folding is exact; the result is true exactly when `s`
      folds to "true" as a whole. */
  function ParseBoolean(s: string): (b: bool)
    ensures b <==> LowerAsciiString(s) == "true"
  {
    var t := LowerAsciiString(s);
    assert |s| == 4 && t[0] == 't' && t[1] == 'r' && t[2] == 'u' && t[3] == 'e' ==> t == "true";
    |s| == 4 && LowerAscii(s[0]) == 't' && LowerAscii(s[1]) == 'r'
    && LowerAscii(s[2]) == 'u' && LowerAscii(s[3]) == 'e'
  }

  /** `Boolean.toString(b)`. */
  function BooleanToString(b: bool): string {
    if b then "true" else "false"
  }

  lemma ParseBooleanOfToString(b: bool)
    ensures ParseBoolean(BooleanToString(b)) == b
  {
  }

  lemma ParseBooleanExamples()
    ensures ParseBoolean("true") && ParseBoolean("TRUE") && ParseBoolean("True")
    ensures !ParseBoolean("false") && !ParseBoolean("yes") && !ParseBoolean("1")
    ensures !ParseBoolean(" true") && !ParseBoolean("")
  {
  }

  // ---------------------------------------------------------------------
  // String.trim
  // ---------------------------------------------------------------------

  /** `String.trim` removes every leading and trailing char whose code is at most U+0020. */
  predicate IsTrimmed(c: char) {
    c <= ' '
  }

  predicate AllTrimmed(s: string) {
    forall k :: 0 <= k < |s| ==> IsTrimmed(s[k])
  }

  /** Number of leading chars that `trim` removes. */
  function LeadingCount(s: string): (n: nat)
    ensures n <= |s|
    ensures forall k :: 0 <= k < n ==> IsTrimmed(s[k])
    ensures n < |s| ==> !IsTrimmed(s[n])
  {
    if |s| > 0 && IsTrimmed(s[0]) then 1 + LeadingCount(s[1..]) else 0
  }

  /** Number of trailing chars that `trim` removes (counted from the end). */
  function TrailingCount(s: string): (n: nat)
    ensures n <= |s|
    ensures forall k :: |s| - n <= k < |s| ==> IsTrimmed(s[k])
    ensures n < |s| ==> !IsTrimmed(s[|s| - 1 - n])
  {
    if |s| > 0 && IsTrimmed(s[|s| - 1]) then 1 + TrailingCount(s[..|s| - 1]) else 0
  }

  /** `s.trim()`. */
  function Trim(s: string): (r: string)
    ensures |r| <= |s|
    ensures r == [] <==> AllTrimmed(s)
    ensures r != [] ==> !IsTrimmed(r[0]) && !IsTrimmed(r[|r| - 1])
    ensures LeadingCount(s) + |r| <= |s|
    ensures r == s[LeadingCount(s)..LeadingCount(s) + |r|]
    ensures AllTrimmed(s[LeadingCount(s) + |r|..])
  {
    var a := LeadingCount(s);
    if a == |s| then [] else s[a..|s| - TrailingCount(s)]
  }

  /** Trimming pads of blank chars around a string that is already trimmed gives it back. */
  lemma {:induction false} TrimOfPadded(pre: string, t: string, post: string)
    requires AllTrimmed(pre) && AllTrimmed(post)
    requires t != [] ==> !IsTrimmed(t[0]) && !IsTrimmed(t[|t| - 1])
    ensures Trim(pre + t + post) == t
  {
    if t == [] {
      assert pre + t + post == pre + post;
      BlanksJoined(pre, post);
    } else {
      TrimOfPaddedWord(pre, t, post);
    }
  }

  lemma BlanksJoined(pre: string, post: string)
    requires AllTrimmed(pre) && AllTrimmed(post)
    ensures AllTrimmed(pre + post)
  {
    var s := pre + post;
    forall k | 0 <= k < |s| ensures IsTrimmed(s[k]) {
      if k < |pre| { assert s[k] == pre[k]; } else { assert s[k] == post[k - |pre|]; }
    }
  }

  lemma TrimOfPaddedWord(pre: string, t: string, post: string)
    requires AllTrimmed(pre) && AllTrimmed(post)
    requires t != [] && !IsTrimmed(t[0]) && !IsTrimmed(t[|t| - 1])
    ensures Trim(pre + t + post) == t
  {
    var s := pre + t + post;
    LeadingOfPadded(pre, t, post, s);
    assert forall k :: |pre| + |t| <= k < |s| ==> s[k] == post[k - |pre| - |t|];
    assert AllTrimmed(s[|pre| + |t|..]) by {
      assert s[|pre| + |t|..] == post;
    }
    assert s[|pre| + |t| - 1] == t[|t| - 1];
    assert s[|pre|..|pre| + |t|] == t;
  }

  lemma LeadingOfPadded(pre: string, t: string, post: string, s: string)
    requires AllTrimmed(pre) && t != [] && !IsTrimmed(t[0])
    requires s == pre + t + post
    ensures LeadingCount(s) == |pre|
  {
    assert s[|pre|] == t[0];
    assert forall k :: 0 <= k < |pre| ==> s[k] == pre[k];
  }

  lemma TrimIdempotent(s: string)
    ensures Trim(Trim(s)) == Trim(s)
  {
    TrimOfPadded([], Trim(s), []);
    assert [] + Trim(s) + [] == Trim(s);
  }

  // ---------------------------------------------------------------------
  // String.split(",")
  // ---------------------------------------------------------------------

  /** The maximal comma-free pieces of `s`, empty ones included: always one more
      piece than there are commas. */
  function Pieces(s: string): (r: seq<string>)
    ensures |r| >= 1
  {
    if s == [] then [""]
    else
      var rest := Pieces(s[1..]);
      if s[0] == ',' then [""] + rest else [[s[0]] + rest[0]] + rest[1..]
  }

  /** Pieces glued back together with ','. */
  function JoinComma(ps: seq<string>): string {
    if ps == [] then ""
    else if |ps| == 1 then ps[0]
    else ps[0] + "," + JoinComma(ps[1..])
  }

  predicate CommaFree(p: string) {
    ',' !in p
  }

  lemma {:induction false} PiecesCommaFree(s: string)
    ensures forall i :: 0 <= i < |Pieces(s)| ==> CommaFree(Pieces(s)[i])
  {
    if s != [] {
      PiecesCommaFree(s[1..]);
      var rest := Pieces(s[1..]);
      if s[0] != ',' {
        assert CommaFree(rest[0]);
        assert [s[0]] + rest[0] == [s[0]] + rest[0];
      }
    }
  }

  lemma {:induction false} JoinPieces(s: string)
    ensures JoinComma(Pieces(s)) == s
  {
    if s != [] {
      JoinPieces(s[1..]);
      if s[0] == ',' {
        JoinPiecesAfterComma(s);
      } else {
        JoinPiecesAfterChar(s);
      }
    }
  }

  lemma {:induction false} JoinPiecesAfterComma(s: string)
    requires s != [] && s[0] == ','
    requires JoinComma(Pieces(s[1..])) == s[1..]
    ensures JoinComma(Pieces(s)) == s
  {
    var rest := Pieces(s[1..]);
    var ps := Pieces(s);
    assert s == [s[0]] + s[1..];
    assert ps == [""] + rest && ps[1..] == rest;
    assert JoinComma(ps) == "" + "," + JoinComma(rest);
  }

  lemma {:induction false} JoinPiecesAfterChar(s: string)
    requires s != [] && s[0] != ','
    requires JoinComma(Pieces(s[1..])) == s[1..]
    ensures JoinComma(Pieces(s)) == s
  {
    var rest := Pieces(s[1..]);
    var ps := Pieces(s);
    var first := [s[0]] + rest[0];
    assert ps == [first] + rest[1..];
    if |rest| == 1 {
      assert ps == [first];
      assert s[1..] == rest[0];
      assert s == [s[0]] + s[1..];
    } else {
      var t := JoinComma(rest[1..]);
      assert ps[1..] == rest[1..];
      assert JoinComma(ps) == first + "," + t;
      assert s[1..] == rest[0] + "," + t;
      ConcatAssoc([s[0]], rest[0], ",", t);
      assert s == [s[0]] + s[1..];
    }
  }

  lemma ConcatAssoc(a: string, b: string, c: string, d: string)
    ensures a + b + c + d == a + (b + c + d)
  {
  }

  /** Splitting a joined list of comma-free pieces gives the pieces back. */
  lemma {:induction false} PiecesOfJoin(ps: seq<string>)
    requires |ps| >= 1
    requires forall i :: 0 <= i < |ps| ==> CommaFree(ps[i])
    ensures Pieces(JoinComma(ps)) == ps
    decreases |JoinComma(ps)|, |ps|
  {
    if |ps| == 1 {
      PiecesOfCommaFree(ps[0]);
    } else {
      var tail := JoinComma(ps[1..]);
      if ps[0] == [] {
        assert JoinComma(ps) == [','] + tail;
        assert ([','] + tail)[1..] == tail;
        PiecesOfJoin(ps[1..]);
        assert ps == [""] + ps[1..];
      } else {
        var c := ps[0][0];
        var ps' := [ps[0][1..]] + ps[1..];
        assert ps'[1..] == ps[1..];
        assert JoinComma(ps') == ps[0][1..] + "," + tail;
        assert JoinComma(ps) == [c] + JoinComma(ps');
        assert c != ',' by { assert c == ps[0][0]; }
        assert forall i :: 0 <= i < |ps'| ==> CommaFree(ps'[i]) by {
          forall i | 0 <= i < |ps'| ensures CommaFree(ps'[i]) {
            if i == 0 { assert ps'[0] == ps[0][1..]; } else { assert ps'[i] == ps[i]; }
          }
        }
        PiecesOfJoin(ps');
        assert ([c] + JoinComma(ps'))[1..] == JoinComma(ps');
        assert ps[0] == [c] + ps[0][1..];
        assert ps == [[c] + ps'[0]] + ps'[1..];
      }
    }
  }

  lemma {:induction false} PiecesOfCommaFree(p: string)
    requires CommaFree(p)
    ensures Pieces(p) == [p]
  {
    if p != [] {
      assert CommaFree(p[1..]) by { assert forall k :: 0 <= k < |p[1..]| ==> p[1..][k] == p[k + 1]; }
      PiecesOfCommaFree(p[1..]);
      assert p == [p[0]] + p[1..];
    }
  }

  /** The list with its trailing empty strings removed. */
  function DropTrailingEmpty(ps: seq<string>): (r: seq<string>)
    ensures |r| <= |ps| && r == ps[..|r|]
    ensures forall i :: |r| <= i < |ps| ==> ps[i] == ""
    ensures r == [] || r[|r| - 1] != ""
  {
    if ps != [] && ps[|ps| - 1] == "" then DropTrailingEmpty(ps[..|ps| - 1]) else ps
  }

  /** The removed tail is all empty strings. */
  lemma {:induction false} DropTrailingEmptyTail(ps: seq<string>)
    ensures ps == DropTrailingEmpty(ps) + Empties(|ps| - |DropTrailingEmpty(ps)|)
  {
    var r := DropTrailingEmpty(ps);
    var e := Empties(|ps| - |r|);
    forall i | 0 <= i < |ps|
      ensures ps[i] == (r + e)[i]
    {
      if i < |r| {
        assert ps[i] == ps[..|r|][i];
      }
    }
  }

  /** `s.split(",")`: the input itself when it holds no comma (so `"".split(",")`
      is `[""]`), otherwise its maximal comma-separated pieces with the trailing
      empty pieces removed. Pieces are not trimmed. The result is comma-free, and
      joining it back gives `s` less a (possibly empty) run of trailing commas. */
  function Split(s: string): (r: seq<string>)
    ensures CommaFree(s) ==> r == [s]
    ensures forall i :: 0 <= i < |r| ==> CommaFree(r[i])
    ensures |Unsplit(r)| <= |s| && s == Unsplit(r) + Commas(|s| - |Unsplit(r)|)
    ensures !CommaFree(s) && r != [] ==> r[|r| - 1] != ""
  {
    if CommaFree(s) then
      assert s == Unsplit([s]) + Commas(0);
      [s]
    else
      PiecesCommaFree(s);
      SplitRoundTripWithComma(s);
      DropTrailingEmpty(Pieces(s))
  }

  /** Joining the pieces back; no pieces join to the empty string. */
  function Unsplit(ps: seq<string>): string {
    if ps == [] then "" else JoinComma(ps)
  }

  lemma {:induction false} SplitRoundTripWithComma(s: string)
    requires !CommaFree(s)
    ensures var u := Unsplit(DropTrailingEmpty(Pieces(s)));
      |u| <= |s| && s == u + Commas(|s| - |u|)
  {
    var ps := Pieces(s);
    var r := DropTrailingEmpty(ps);
    var k := |ps| - |r|;
    DropTrailingEmptyTail(ps);
    assert r == [] ==> k >= 1;
    var n: nat := if r == [] then k - 1 else k;
    JoinWithEmptyTail(r, k);
    JoinPieces(s);
    var u := Unsplit(r);
    assert s == u + Commas(n);
    assert |s| - |u| == n;
  }

  function Commas(n: nat): (r: string)
    ensures |r| == n
  {
    if n == 0 then "" else Commas(n - 1) + ","
  }

  lemma {:induction false} CommasAreCommas(n: nat)
    ensures forall j :: 0 <= j < n ==> Commas(n)[j] == ','
  {
    if n > 0 { CommasAreCommas(n - 1); }
  }

  function Empties(n: nat): (r: seq<string>)
    ensures |r| == n && forall i :: 0 <= i < n ==> r[i] == ""
  {
    if n == 0 then [] else Empties(n - 1) + [""]
  }

  /** Joining `r` followed by `k` empty pieces is joining `r`, then `k` commas
      (one fewer when `r` is empty, since there is no leading separator). */
  lemma {:induction false} JoinWithEmptyTail(r: seq<string>, k: nat)
    requires r == [] ==> k >= 1
    ensures JoinComma(r + Empties(k))
      == Unsplit(r) + Commas(if r == [] then k - 1 else k)
  {
    if k == 0 {
      assert r + Empties(0) == r;
    } else if r == [] && k == 1 {
      assert r + Empties(1) == [""];
    } else {
      var e := r + Empties(k - 1);
      JoinWithEmptyTail(r, k - 1);
      var n: nat := if r == [] then k - 1 else k;
      var u, c := Unsplit(r), Commas(n - 1);
      JoinOneMoreEmpty(e, u, c);
      assert r + Empties(k) == e + [""];
    }
  }

  lemma JoinOneMoreEmpty(e: seq<string>, u: string, c: string)
    requires |e| >= 1 && JoinComma(e) == u + c
    ensures JoinComma(e + [""]) == u + (c + ",")
  {
    JoinSnoc(e, "");
    assert (u + c) + "," + "" == u + (c + ",");
  }

  lemma {:induction false} JoinSnoc(ps: seq<string>, p: string)
    requires ps != []
    ensures JoinComma(ps + [p]) == JoinComma(ps) + "," + p
  {
    if |ps| == 1 {
      assert ps + [p] == [ps[0], p];
    } else {
      JoinSnoc(ps[1..], p);
      assert (ps + [p])[1..] == ps[1..] + [p];
    }
  }

  lemma SplitOfBlank()
    ensures Split("") == [""]
  {
  }

  lemma SplitOfLoneComma()
    ensures Split(",") == []
  {
    assert Pieces(",") == ["", ""];
    assert DropTrailingEmpty(["", ""]) == [] by {
      assert ["", ""][..1] == [""];
      assert [""][..0] == [];
    }
  }

  lemma SplitKeepsLeadingEmptyAndSpaces()
    ensures Split(",a") == ["", "a"]
    ensures Split("a, b") == ["a", " b"]
  {
    PiecesOfCommaFree("a");
    PiecesOfCommaFree(" b");
    assert ",a"[1..] == "a";
    assert Pieces(",a") == ["", "a"];
    assert "a, b"[1..] == ", b" && ", b"[1..] == " b";
    assert Pieces(", b") == ["", " b"];
    assert Pieces("a, b") == ["a", " b"];
  }

  lemma SplitDropsOnlyTrailingEmpties()
    ensures Split("a,,b,,") == ["a", "", "b"]
  {
    ExamplePieces();
    ExampleDrop();
    assert !CommaFree("a,,b,,") by { assert "a,,b,,"[1] == ','; }
  }

  lemma ExamplePieces()
    ensures Pieces("a,,b,,") == ["a", "", "b", "", ""]
  {
    var ps := ["a", "", "b", "", ""];
    var s := "a,,b,,";
    assert forall i :: 0 <= i < |ps| ==> CommaFree(ps[i]);
    assert JoinComma(ps) == s by {
      assert ps[1..] == ["", "b", "", ""];
      assert ps[1..][1..] == ["b", "", ""];
      assert ps[1..][1..][1..] == ["", ""];
      assert ps[1..][1..][1..][1..] == [""];
    }
    PiecesOfJoin(ps);
  }

  lemma ExampleDrop()
    ensures DropTrailingEmpty(["a", "", "b", "", ""]) == ["a", "", "b"]
  {
    var ps := ["a", "", "b", "", ""];
    assert ps[..4] == ["a", "", "b", ""];
    assert ps[..4][..3] == ["a", "", "b"];
  }

}
