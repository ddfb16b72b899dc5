/** Splitting text at a separator. */
module Text {
  /** The pieces between separators, as `strings.Split` gives them: always at least one. */
  function Split(text: string, sep: char): (pieces: seq<string>)
    ensures |pieces| > 0
  {
    if text == "" then [""]
    else
      var rest := Split(text[1..], sep);
      if text[0] == sep then [""] + rest else [[text[0]] + rest[0]] + rest[1..]
  }

  lemma {:induction false} SplitHasNo(text: string, sep: char)
    ensures forall piece :: piece in Split(text, sep) ==> sep !in piece
  {
    if text != "" {
      SplitHasNo(text[1..], sep);
    }
  }

  /** Two lists of pieces, the last of one joined to the first of the other. */
  function Glue(first: seq<string>, second: seq<string>): seq<string>
    requires first != [] && second != []
  {
    if |first| == 1 then [first[0] + second[0]] + second[1..] else [first[0]] + Glue(first[1..], second)
  }

  /** Appended text goes on in the last piece. */
  lemma {:induction false} SplitAppend(a: string, b: string, sep: char)
    ensures Split(a + b, sep) == Glue(Split(a, sep), Split(b, sep))
  {
    if a == "" {
      assert a + b == b;
      assert "" + Split(b, sep)[0] == Split(b, sep)[0];
    } else {
      assert (a + b)[1..] == a[1..] + b;
      SplitAppend(a[1..], b, sep);
      var rest, second := Split(a[1..], sep), Split(b, sep);
      if a[0] == sep {
        assert ([""] + rest)[1..] == rest;
      } else {
        GlueHead(a[0], rest, second);
      }
    }
  }

  lemma GlueHead(c: char, rest: seq<string>, second: seq<string>)
    requires rest != [] && second != []
    ensures Glue([[c] + rest[0]] + rest[1..], second) == [[c] + Glue(rest, second)[0]] + Glue(rest, second)[1..]
  {
    if |rest| == 1 {
      assert ([c] + rest[0]) + second[0] == [c] + (rest[0] + second[0]);
    } else {
      assert ([[c] + rest[0]] + rest[1..])[1..] == rest[1..];
    }
  }

  lemma {:induction false} GlueIs(first: seq<string>, last: string, second: seq<string>)
    requires second != []
    ensures Glue(first + [last], second) == first + [last + second[0]] + second[1..]
  {
    if first == [] {
      assert first + [last] == [last];
    } else {
      assert (first + [last])[1..] == first[1..] + [last];
      GlueIs(first[1..], last, second);
    }
  }

  lemma {:induction false} SplitWhole(piece: string, sep: char)
    requires sep !in piece
    ensures Split(piece, sep) == [piece]
  {
    if piece != "" {
      SplitWhole(piece[1..], sep);
      assert [piece[0]] + piece[1..] == piece;
    }
  }

  lemma SplitSeparator(sep: char)
    ensures Split([sep], sep) == ["", ""]
  {
    assert [sep][1..] == "";
  }

  /** Text put after a separator is split on its own. */
  lemma SplitAt(a: string, b: string, sep: char)
    ensures Split(a + [sep] + b, sep) == Split(a, sep) + Split(b, sep)
  {
    hide Split;
    var first, second := Split(a, sep), Split(b, sep);
    var front, last := first[..|first| - 1], first[|first| - 1];
    SplitSeparator(sep);
    SplitAppend(a, [sep], sep);
    assert first == front + [last];
    GlueIs(front, last, ["", ""]);
    assert last + "" == last;
    assert Split(a + [sep], sep) == first + [""];
    SplitAppend(a + [sep], b, sep);
    GlueIs(first, "", second);
    assert "" + second[0] == second[0];
  }
}
