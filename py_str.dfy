/** Python's `str.split(sep)` for a one-character separator, and the facts about it
    that the domain rule of the orchestrator rests on. */
module PyStr {

  /** `s.split(sep)`: the pieces of `s` between occurrences of `sep`, empty pieces
      kept. An empty string gives one empty piece, as in Python. */
  function Split(s: string, sep: char): (parts: seq<string>)
    ensures |parts| >= 1
  {
    if s == [] then [""]
    else
      var rest := Split(s[1..], sep);
      if s[0] == sep then [""] + rest
      else [[s[0]] + rest[0]] + rest[1..]
  }

  /** No piece contains the separator. */
  lemma {:induction false} SplitPiecesFree(s: string, sep: char)
    ensures forall i :: 0 <= i < |Split(s, sep)| ==> sep !in Split(s, sep)[i]
  {
    if s != [] {
      SplitPiecesFree(s[1..], sep);
      var rest := Split(s[1..], sep);
      if s[0] != sep {
        var parts := Split(s, sep);
        forall i | 0 <= i < |parts| ensures sep !in parts[i] {
          if i == 0 {
            assert parts[0] == [s[0]] + rest[0];
          } else {
            assert parts[i] == rest[i];
          }
        }
      }
    }
  }

  /** `sep.join(parts)`: the pieces with one `sep` between neighbours. */
  function Join(parts: seq<string>, sep: char): string
    requires |parts| >= 1
  {
    if |parts| == 1 then parts[0] else parts[0] + [sep] + Join(parts[1..], sep)
  }

  /** The number of occurrences of `c` in `s`. */
  function Count(s: string, c: char): nat
  {
    if s == [] then 0 else (if s[0] == c then 1 else 0) + Count(s[1..], c)
  }

  /** Splitting loses nothing: joining the pieces gives back the string. */
  lemma {:induction false} JoinSplit(s: string, sep: char)
    ensures Join(Split(s, sep), sep) == s
  {
    if s != [] {
      var rest := Split(s[1..], sep);
      JoinSplit(s[1..], sep);
      if s[0] == sep {
        assert Split(s, sep) == [""] + rest;
        assert ([""] + rest)[1..] == rest;
      } else {
        var parts := Split(s, sep);
        assert parts == [[s[0]] + rest[0]] + rest[1..];
        if |rest| == 1 {
          assert Join(rest, sep) == rest[0];
        } else {
          assert parts[1..] == rest[1..];
          assert Join(rest, sep) == rest[0] + [sep] + Join(rest[1..], sep);
        }
        assert s == [s[0]] + s[1..];
      }
    }
  }

  /** Joining pieces free of `sep` and splitting again gives back the pieces. */
  lemma {:induction false} SplitJoin(parts: seq<string>, sep: char)
    requires |parts| >= 1
    requires forall i :: 0 <= i < |parts| ==> sep !in parts[i]
    ensures Split(Join(parts, sep), sep) == parts
  {
    if |parts| == 1 {
      SplitFree(parts[0], sep);
    } else {
      SplitJoin(parts[1..], sep);
      SplitAtSeparator(parts[0], Join(parts[1..], sep), sep);
      SplitFree(parts[0], sep);
      assert [parts[0]] + parts[1..] == parts;
    }
  }

  /** A string without `sep` is one piece. */
  lemma {:induction false} SplitFree(s: string, sep: char)
    requires sep !in s
    ensures Split(s, sep) == [s]
  {
    if s != [] {
      SplitFree(s[1..], sep);
      assert [s[0]] + s[1..] == s;
    }
  }

  /** One step of `Split`: the first character starts a new piece or extends the first one. */
  lemma SplitCons(c: char, t: string, sep: char)
    ensures Split([c] + t, sep)
         == if c == sep then [""] + Split(t, sep) else [[c] + Split(t, sep)[0]] + Split(t, sep)[1..]
  {
    assert ([c] + t)[0] == c && ([c] + t)[1..] == t;
  }

  /** Splitting at an occurrence of `sep` splits the two sides separately. */
  lemma {:induction false} SplitAtSeparator(x: string, y: string, sep: char)
    ensures Split(x + [sep] + y, sep) == Split(x, sep) + Split(y, sep)
  {
    if x == [] {
      assert x + [sep] + y == [sep] + y;
      SplitCons(sep, y, sep);
    } else {
      assert x == [x[0]] + x[1..];
      SplitAtSeparator(x[1..], y, sep);
      SplitAtSeparatorStep(x[0], x[1..], y, sep);
    }
  }

  /** The inductive step of `SplitAtSeparator`: one more character in front. */
  lemma SplitAtSeparatorStep(c: char, t: string, y: string, sep: char)
    requires Split(t + [sep] + y, sep) == Split(t, sep) + Split(y, sep)
    ensures Split([c] + t + [sep] + y, sep) == Split([c] + t, sep) + Split(y, sep)
  {
    assert [c] + t + [sep] + y == [c] + (t + [sep] + y);
    if c == sep {
      SeparatorStep(t, y, sep);
    } else {
      CharacterStep(c, t, y, sep);
    }
  }

  /** The step for a leading separator: it opens an empty piece. */
  lemma SeparatorStep(t: string, y: string, sep: char)
    requires Split(t + [sep] + y, sep) == Split(t, sep) + Split(y, sep)
    ensures Split([sep] + (t + [sep] + y), sep) == Split([sep] + t, sep) + Split(y, sep)
  {
    var rt, ry := Split(t, sep), Split(y, sep);
    calc {
      Split([sep] + (t + [sep] + y), sep);
      { SplitCons(sep, t + [sep] + y, sep); }
      [""] + (rt + ry);
      ([""] + rt) + ry;
      { SplitCons(sep, t, sep); }
      Split([sep] + t, sep) + ry;
    }
  }

  /** The step for a leading non-separator: it extends the first piece. */
  lemma CharacterStep(c: char, t: string, y: string, sep: char)
    requires c != sep
    requires Split(t + [sep] + y, sep) == Split(t, sep) + Split(y, sep)
    ensures Split([c] + (t + [sep] + y), sep) == Split([c] + t, sep) + Split(y, sep)
  {
    SplitCons(c, t + [sep] + y, sep);
    SplitCons(c, t, sep);
    ExtendFirstPiece(c, Split(t, sep), Split(y, sep));
  }

  /** Extending the first piece of `a + b` is extending the first piece of `a`. */
  lemma ExtendFirstPiece(c: char, a: seq<string>, b: seq<string>)
    requires |a| >= 1
    ensures [[c] + (a + b)[0]] + (a + b)[1..] == ([[c] + a[0]] + a[1..]) + b
  {
    assert (a + b)[0] == a[0];
    assert (a + b)[1..] == a[1..] + b;
  }

  /** There is one piece more than there are separators. */
  lemma {:induction false} SplitCount(s: string, sep: char)
    ensures |Split(s, sep)| == Count(s, sep) + 1
  {
    if s != [] {
      SplitCount(s[1..], sep);
    }
  }
}
