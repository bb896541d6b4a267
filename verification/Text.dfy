/** Literal search and replace, as a regular expression without operators does it: leftmost
    occurrence first, no overlaps. */
module Text {
  /** Some suffix of s starts with word. */
  predicate Contains(s: string, word: string) {
    word <= s || (s != "" && Contains(s[1..], word))
  }

  function Rewrite(s: string, from: string, to: string): string
    requires from != ""
  {
    if s == "" then ""
    else if from <= s then to + Rewrite(s[|from|..], from, to)
    else [s[0]] + Rewrite(s[1..], from, to)
  }

  /** The text between the occurrences that Rewrite replaces. */
  function Pieces(s: string, from: string): (pieces: seq<string>)
    requires from != ""
    ensures pieces != []
  {
    if s == "" then [""]
    else if from <= s then [""] + Pieces(s[|from|..], from)
    else
      var rest := Pieces(s[1..], from);
      [[s[0]] + rest[0]] + rest[1..]
  }

  function Joined(pieces: seq<string>, glue: string): string {
    if pieces == [] then ""
    else if |pieces| == 1 then pieces[0]
    else pieces[0] + glue + Joined(pieces[1..], glue)
  }

  /** Neither word starts inside the other, nor again inside itself. */
  ghost predicate Apart(a: string, b: string) {
    && a != "" && b != ""
    && a[0] !in a[1..] && b[0] !in b[1..]
    && a[0] !in b && b[0] !in a
  }

  lemma {:induction false} ContainsAt(s: string, word: string)
    ensures Contains(s, word) <==> exists i :: 0 <= i <= |s| && word <= s[i..]
  {
    assert s[0..] == s;
    if s == "" {
    } else {
      ContainsAt(s[1..], word);
      forall i | 0 <= i < |s| ensures s[1..][i..] == s[i + 1..] {}
      if Contains(s[1..], word) {
        var i :| 0 <= i <= |s[1..]| && word <= s[1..][i..];
        assert word <= s[i + 1..];
      }
      if j :| 0 < j <= |s| && word <= s[j..] {
        assert s[1..][j - 1..] == s[j..];
      }
    }
  }

  /** A word cannot be found from inside a text that lacks its first letter. */
  lemma {:induction false} SkipOver(t: string, s: string, word: string)
    requires word != "" && word[0] !in t
    ensures Contains(t + s, word) <==> Contains(s, word)
  {
    if t == "" {
      assert t + s == s;
    } else {
      SkipOver(t[1..], s, word);
      assert (t + s)[1..] == t[1..] + s;
      assert (t + s)[0] == t[0];
    }
  }

  lemma PrefixOfPush(word: string, c: char, s: string)
    requires word != ""
    ensures word <= [c] + s <==> word[0] == c && word[1..] <= s
  {
    assert ([c] + s)[1..] == s;
    assert word == [word[0]] + word[1..];
  }

  /** What the rewritten text starts with, the text started with: nothing is spelled across a seam. */
  lemma {:induction false} NoWordAcrossASeam(s: string, from: string, to: string, word: string)
    requires from != "" && to != "" && to[0] !in word
    ensures word <= Rewrite(s, from, to) ==> word <= s
  {
    if word == "" || s == "" {
    } else if from <= s {
      assert Rewrite(s, from, to)[0] == to[0] && word[0] in word;
    } else {
      NoWordAcrossASeam(s[1..], from, to, word[1..]);
      PrefixOfPush(word, s[0], Rewrite(s[1..], from, to));
      PrefixOfPush(word, s[0], s[1..]);
      assert s == [s[0]] + s[1..];
    }
  }

  /** Where `word` did not start before the rewriting, it does not start after it either. */
  lemma NoNewStart(s: string, from: string, to: string, word: string)
    requires s != "" && from != "" && to != "" && word != "" && to[0] !in word[1..]
    requires !(word <= s)
    ensures !(word <= [s[0]] + Rewrite(s[1..], from, to))
  {
    NoWordAcrossASeam(s[1..], from, to, word[1..]);
    PrefixOfPush(word, s[0], Rewrite(s[1..], from, to));
    PrefixOfPush(word, s[0], s[1..]);
    assert s == [s[0]] + s[1..];
  }

  /** No occurrence survives, not even one that the rewriting itself would form. */
  lemma {:induction false} NothingResidual(s: string, from: string, to: string)
    requires Apart(from, to)
    ensures !Contains(Rewrite(s, from, to), from)
  {
    if s == "" {
    } else if from <= s {
      NothingResidual(s[|from|..], from, to);
      SkipOver(to, Rewrite(s[|from|..], from, to), from);
    } else {
      var rest := Rewrite(s[1..], from, to);
      NothingResidual(s[1..], from, to);
      NoNewStart(s, from, to, from);
      assert ([s[0]] + rest)[1..] == rest;
    }
  }

  /** Only occurrences change: the text around them is kept, in order, and they are all of them. */
  lemma RewriteReplacesExactlyTheOccurrences(s: string, from: string, to: string)
    requires Apart(from, to)
    ensures Joined(Pieces(s, from), from) == s
    ensures Joined(Pieces(s, from), to) == Rewrite(s, from, to)
    ensures forall i :: 0 <= i < |Pieces(s, from)| ==> !Contains(Pieces(s, from)[i], from)
  {
    PiecesJoin(s, from, to);
    PiecesJoin(s, from, from);
    RewriteToItself(s, from);
    PiecesAreClean(s, from);
  }

  lemma {:induction false} RewriteToItself(s: string, word: string)
    requires word != ""
    ensures Rewrite(s, word, word) == s
  {
    if s == "" {
    } else if word <= s {
      RewriteToItself(s[|word|..], word);
    } else {
      RewriteToItself(s[1..], word);
    }
  }

  lemma {:induction false} PiecesJoin(s: string, from: string, glue: string)
    requires from != ""
    ensures Joined(Pieces(s, from), glue) == Rewrite(s, from, glue)
  {
    if s == "" {
    } else if from <= s {
      PiecesJoin(s[|from|..], from, glue);
      PushEmpty(Pieces(s[|from|..], from), glue);
    } else {
      PiecesJoin(s[1..], from, glue);
      PushLetter(s[0], Pieces(s[1..], from), glue);
    }
  }

  lemma PushEmpty(pieces: seq<string>, glue: string)
    requires pieces != []
    ensures Joined([""] + pieces, glue) == glue + Joined(pieces, glue)
  {
    assert ([""] + pieces)[1..] == pieces;
  }

  lemma PushLetter(c: char, pieces: seq<string>, glue: string)
    requires pieces != []
    ensures Joined([[c] + pieces[0]] + pieces[1..], glue) == [c] + Joined(pieces, glue)
  {
    var pushed := [[c] + pieces[0]] + pieces[1..];
    assert pushed[1..] == pieces[1..];
  }

  lemma {:induction false} PiecesAreClean(s: string, from: string)
    requires from != ""
    ensures forall i :: 0 <= i < |Pieces(s, from)| ==> !Contains(Pieces(s, from)[i], from)
    ensures Pieces(s, from)[0] <= s
  {
    if s == "" {
    } else if from <= s {
      PiecesAreClean(s[|from|..], from);
    } else {
      PiecesAreClean(s[1..], from);
      var rest := Pieces(s[1..], from);
      assert s == [s[0]] + s[1..];
      assert ([s[0]] + rest[0])[1..] == rest[0];
      assert [s[0]] + rest[0] <= s;
    }
  }

  /** There is something to rewrite exactly when the text changes. */
  lemma {:induction false} ChangesExactlyWhenPresent(s: string, from: string, to: string)
    requires Apart(from, to)
    ensures Rewrite(s, from, to) != s <==> Contains(s, from)
  {
    NothingResidual(s, from, to);
    if !Contains(s, from) { UntouchedWithout(s, from, to); }
  }

  lemma {:induction false} UntouchedWithout(s: string, from: string, to: string)
    requires from != "" && !Contains(s, from)
    ensures Rewrite(s, from, to) == s
  {
    if s != "" { UntouchedWithout(s[1..], from, to); }
  }

  /** The rewriting can be undone exactly when the new word did not occur before. */
  lemma {:induction false} RoundTrip(s: string, a: string, b: string)
    requires Apart(a, b)
    ensures Rewrite(Rewrite(s, a, b), b, a) == s <==> !Contains(s, b)
  {
    NothingResidual(Rewrite(s, a, b), b, a);
    if !Contains(s, b) { Undo(s, a, b); }
  }

  lemma {:induction false} Undo(s: string, a: string, b: string)
    requires Apart(a, b) && !Contains(s, b)
    ensures Rewrite(Rewrite(s, a, b), b, a) == s
  {
    if s == "" {
    } else if a <= s {
      var rest := s[|a|..];
      assert s == a + rest;
      SkipOver(a, rest, b);
      Undo(rest, a, b);
      assert (b + Rewrite(rest, a, b))[|b|..] == Rewrite(rest, a, b);
    } else {
      var rest := Rewrite(s[1..], a, b);
      Undo(s[1..], a, b);
      NoNewStart(s, a, b, b);
      assert s == [s[0]] + s[1..];
      assert ([s[0]] + rest)[1..] == rest;
    }
  }
}
