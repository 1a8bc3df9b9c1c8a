/** Words and whitespace, as Python's str methods see them. */
module Text {

  /** The characters Python's str.isspace and str.split treat as whitespace. */
  predicate IsSpace(c: char) {
    var n := c as int;
    9 <= n <= 13 || 28 <= n <= 32 || n == 0x85 || n == 0xA0 || n == 0x1680
    || 0x2000 <= n <= 0x200A || n == 0x2028 || n == 0x2029 || n == 0x202F || n == 0x205F || n == 0x3000
  }

  /** One by one: the white space of Unicode, and the four separators below the blank. */
  lemma SpacesAre(c: char)
    ensures IsSpace(c) <==>
            c as int in {9, 10, 11, 12, 13, 28, 29, 30, 31, 32, 133, 160, 5760, 8192, 8193, 8194, 8195, 8196, 8197, 8198,
                         8199, 8200, 8201, 8202, 8232, 8233, 8239, 8287, 12288}
  {}

  /** The length of the word the text starts with. */
  function WordLength(s: string): (n: nat)
    ensures n <= |s| && (n < |s| ==> IsSpace(s[n]))
    ensures n > 0 ==> !IsSpace(s[0]) && !IsSpace(s[n - 1])
    ensures s != "" && !IsSpace(s[0]) ==> n > 0
  {
    if s == "" || IsSpace(s[0]) then 0 else 1 + WordLength(s[1..])
  }

  /** str.split(). */
  function Words(s: string): (ws: seq<string>)
    ensures |ws| <= |s|
    decreases |s|
  {
    if s == "" then []
    else if IsSpace(s[0]) then Words(s[1..])
    else var n := WordLength(s); [s[..n]] + Words(s[n..])
  }

  function WordCount(s: string): nat {
    |Words(s)|
  }

  function LStrip(s: string): (r: string)
    ensures r != "" ==> !IsSpace(r[0])
    ensures |r| <= |s|
  {
    if s != "" && IsSpace(s[0]) then LStrip(s[1..]) else s
  }

  function RStrip(s: string): (r: string)
    ensures r <= s && (r != "" ==> !IsSpace(r[|r| - 1]))
  {
    if s != "" && IsSpace(s[|s| - 1]) then RStrip(s[..|s| - 1]) else s
  }

  /** str.strip(). */
  function Strip(s: string): (r: string)
    ensures r != "" ==> !IsSpace(r[0]) && !IsSpace(r[|r| - 1])
  {
    RStrip(LStrip(s))
  }

  /** " ".join(ws). */
  function Join(ws: seq<string>): string {
    if ws == [] then "" else if |ws| == 1 then ws[0] else ws[0] + " " + Join(ws[1..])
  }

  /** The non-whitespace characters, in order. */
  function NonSpace(s: string): string {
    if s == "" then "" else (if IsSpace(s[0]) then "" else [s[0]]) + NonSpace(s[1..])
  }

  function Flatten(ws: seq<string>): string {
    if ws == [] then "" else ws[0] + Flatten(ws[1..])
  }

  lemma {:induction false} NonSpaceAppend(a: string, b: string)
    ensures NonSpace(a + b) == NonSpace(a) + NonSpace(b)
  {
    if a == "" {
      assert a + b == b;
    } else {
      assert (a + b)[1..] == a[1..] + b;
      NonSpaceAppend(a[1..], b);
    }
  }

  lemma NonSpaceCut(s: string, n: nat)
    requires n <= |s|
    ensures NonSpace(s) == NonSpace(s[..n]) + NonSpace(s[n..])
  {
    assert s == s[..n] + s[n..];
    NonSpaceAppend(s[..n], s[n..]);
  }

  lemma {:induction false} NonSpaceStrip(s: string)
    ensures NonSpace(Strip(s)) == NonSpace(s)
  {
    NonSpaceLStrip(s);
    NonSpaceRStrip(LStrip(s));
  }

  lemma {:induction false} NonSpaceLStrip(s: string)
    ensures NonSpace(LStrip(s)) == NonSpace(s)
  {
    if s != "" && IsSpace(s[0]) {
      NonSpaceLStrip(s[1..]);
    }
  }

  lemma {:induction false} NonSpaceRStrip(s: string)
    ensures NonSpace(RStrip(s)) == NonSpace(s)
  {
    var n := |s| - 1;
    if s != "" && IsSpace(s[n]) {
      NonSpaceRStrip(s[..n]);
      NonSpaceCut(s, n);
      assert s[n..] == [s[n]];
      assert NonSpace([s[n]]) == "";
    }
  }

  ghost predicate AllSpace(s: string) {
    forall i :: 0 <= i < |s| ==> IsSpace(s[i])
  }

  /** Stripping takes whitespace off both ends and nothing else. */
  lemma StripIs(s: string) returns (a: string, b: string)
    ensures s == a + Strip(s) + b && AllSpace(a) && AllSpace(b)
  {
    a := LStripIs(s);
    b := RStripIs(LStrip(s));
  }

  lemma {:induction false} LStripIs(s: string) returns (a: string)
    ensures s == a + LStrip(s) && AllSpace(a)
  {
    if s != "" && IsSpace(s[0]) {
      a := LStripIs(s[1..]);
      a := [s[0]] + a;
    } else {
      a := "";
    }
  }

  lemma {:induction false} RStripIs(s: string) returns (b: string)
    ensures s == RStrip(s) + b && AllSpace(b)
  {
    if s != "" && IsSpace(s[|s| - 1]) {
      b := RStripIs(s[..|s| - 1]);
      b := b + [s[|s| - 1]];
    } else {
      b := "";
    }
  }

  /** A leading word is kept whole. */
  lemma {:induction false} NonSpaceWord(s: string)
    ensures NonSpace(s[..WordLength(s)]) == s[..WordLength(s)]
  {
    if s != "" && !IsSpace(s[0]) {
      NonSpaceWord(s[1..]);
      var n := WordLength(s);
      assert s[..n][1..] == s[1..][..n - 1];
      assert s[..n] == [s[0]] + s[1..][..n - 1];
    }
  }

  ghost predicate Solid(ws: seq<string>) {
    forall k :: 0 <= k < |ws| ==> NonSpace(ws[k]) == ws[k]
  }

  /** Splitting loses whitespace only. */
  lemma {:induction false} WordsKeepNonSpace(s: string)
    ensures Flatten(Words(s)) == NonSpace(s) && Solid(Words(s))
    decreases |s|
  {
    if s != "" {
      if IsSpace(s[0]) {
        WordsKeepNonSpace(s[1..]);
      } else {
        var n := WordLength(s);
        WordsKeepNonSpace(s[n..]);
        NonSpaceWord(s);
        NonSpaceCut(s, n);
      }
    }
  }

  lemma {:induction false} JoinKeepsNonSpace(ws: seq<string>)
    requires Solid(ws)
    ensures NonSpace(Join(ws)) == Flatten(ws)
  {
    if |ws| == 1 {
      assert ws[1..] == [];
    } else if |ws| > 1 {
      JoinKeepsNonSpace(ws[1..]);
      NonSpaceAppend(ws[0], " ");
      assert NonSpace(" ") == "";
      NonSpaceAppend(ws[0] + " ", Join(ws[1..]));
    }
  }

  lemma {:induction false} SolidWord(w: string)
    requires w != "" && NonSpace(w) == w
    ensures WordLength(w) == |w| && WordLength(w + " ") == |w|
  {
    if IsSpace(w[0]) {
      NonSpaceShrinks(w[1..]);
      assert false;
    }
    assert NonSpace(w) == [w[0]] + NonSpace(w[1..]);
    assert NonSpace(w)[1..] == NonSpace(w[1..]) && w[1..] == NonSpace(w[1..]);
    assert (w + " ")[1..] == w[1..] + " ";
    if |w| > 1 {
      SolidWord(w[1..]);
    } else {
      assert (w + " ")[1..] == " " && WordLength(" ") == 0 && w[1..] == "";
    }
  }

  lemma {:induction false} NonSpaceShrinks(s: string)
    ensures |NonSpace(s)| <= |s|
  {
    if s != "" {
      NonSpaceShrinks(s[1..]);
    }
  }

  /** " ".join and str.split undo each other on words. */
  lemma {:induction false} WordsOfJoin(ws: seq<string>)
    requires Solid(ws) && forall k :: 0 <= k < |ws| ==> ws[k] != ""
    ensures Words(Join(ws)) == ws
  {
    if ws != [] {
      var w := ws[0];
      SolidWord(w);
      NonSpaceShrinks(w);
      assert !IsSpace(w[0]) by {
        assert WordLength(w) > 0;
      }
      if |ws| == 1 {
        assert w[..|w|] == w && w[|w|..] == "";
      } else {
        WordsOfJoin(ws[1..]);
        var front := w + " ";
        WordsAppend(front, Join(ws[1..]));
        assert front[..|w|] == w && front[|w|..] == " " && Words(" ") == Words(" "[1..]);
        assert Words(front) == [w];
        assert ws == [w] + ws[1..];
      }
    }
  }

  lemma {:induction false} FlattenSplit(ws: seq<string>, n: nat)
    requires n <= |ws|
    ensures Flatten(ws) == Flatten(ws[..n]) + Flatten(ws[n..])
  {
    if n > 0 {
      FlattenSplit(ws[1..], n - 1);
      assert ws[..n][1..] == ws[1..][..n - 1];
      assert ws[1..][n - 1..] == ws[n..];
    } else {
      assert ws[n..] == ws;
    }
  }

  /** A leading word that ends inside a is untouched by what follows a. */
  lemma {:induction false} WordLengthAppend(a: string, b: string)
    requires a != "" && IsSpace(a[|a| - 1])
    ensures WordLength(a + b) == WordLength(a) < |a|
  {
    if !IsSpace(a[0]) {
      assert (a + b)[1..] == a[1..] + b;
      WordLengthAppend(a[1..], b);
    }
  }

  lemma NoWords()
    ensures Words("") == []
  {}

  lemma BlankFirst(s: string)
    requires s != "" && IsSpace(s[0])
    ensures Words(s) == Words(s[1..])
  {}

  lemma WordFirst(s: string)
    requires s != "" && !IsSpace(s[0])
    ensures Words(s) == [s[..WordLength(s)]] + Words(s[WordLength(s)..])
  {}

  /** Splitting a text whose first part ends in whitespace splits the parts. */
  lemma {:induction false} WordsAppend(a: string, b: string)
    requires a == "" || IsSpace(a[|a| - 1])
    ensures Words(a + b) == Words(a) + Words(b)
    decreases |a|
  {
    hide Words, WordLength, IsSpace;
    if a == "" {
      assert a + b == b;
      NoWords();
    } else if IsSpace(a[0]) {
      assert (a + b)[1..] == a[1..] + b;
      WordsAppend(a[1..], b);
      BlankFirst(a);
      BlankFirst(a + b);
    } else {
      var n := WordLength(a);
      WordLengthAppend(a, b);
      assert (a + b)[..n] == a[..n];
      assert (a + b)[n..] == a[n..] + b;
      WordsAppend(a[n..], b);
      WordFirst(a);
      WordFirst(a + b);
    }
  }

  lemma {:induction false} WordLengthBefore(a: string, b: string)
    requires a != "" && (b == "" || IsSpace(b[0]))
    ensures WordLength(a + b) == WordLength(a)
  {
    if !IsSpace(a[0]) {
      assert (a + b)[1..] == a[1..] + b;
      if |a| > 1 {
        WordLengthBefore(a[1..], b);
      } else {
        assert (a + b)[1..] == b;
      }
    }
  }

  /** Splitting a text whose second part starts with whitespace splits the parts. */
  lemma {:induction false} WordsBefore(a: string, b: string)
    requires b == "" || IsSpace(b[0])
    ensures Words(a + b) == Words(a) + Words(b)
    decreases |a|
  {
    hide Words, WordLength, IsSpace;
    if a == "" {
      assert a + b == b;
      NoWords();
    } else if IsSpace(a[0]) {
      assert (a + b)[1..] == a[1..] + b;
      WordsBefore(a[1..], b);
      BlankFirst(a);
      BlankFirst(a + b);
    } else {
      var n := WordLength(a);
      WordLengthBefore(a, b);
      assert (a + b)[..n] == a[..n];
      assert (a + b)[n..] == a[n..] + b;
      WordsBefore(a[n..], b);
      WordFirst(a);
      WordFirst(a + b);
    }
  }
}
