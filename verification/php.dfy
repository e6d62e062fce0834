/**
 The two pieces of PHP semantics the plugin's decisions depend on: the boolean
 conversion of a string-or-null value (what `if ($x)`, `!$x` and `empty($x)` test),
 and `explode()` with a one-character delimiter, together with its inverse `implode()`.
 */
module Php {
  import opened Wrappers

  /** PHP's boolean conversion of a string-or-null: `NULL`, `""` and `"0"` are false, every other string is true. */
  predicate Truthy(v: Option<string>) {
    v.Some? && v.value != "" && v.value != "0"
  }

  /** The falsy values of a nullable string are exactly `NULL`, `""` and `"0"`. */
  lemma FalsyValues(v: Option<string>)
    ensures !Truthy(v) <==> v in {None, Some(""), Some("0")}
  {
  }

  /** Number of occurrences of `c` in `s`. */
  function Occurrences(c: char, s: string): (n: nat)
    ensures n <= |s|
  {
    if |s| == 0 then 0 else (if s[0] == c then 1 else 0) + Occurrences(c, s[1..])
  }

  /**
   `explode(sep, s)` without a limit: the pieces of `s` between occurrences of `sep`,
   left to right, with empty pieces kept and nothing trimmed. There is always at least
   one piece (`explode(',', "")` is `[""]`) and no piece contains the delimiter.
   */
  function Explode(sep: char, s: string): (pieces: seq<string>)
    ensures |pieces| >= 1
    ensures forall i :: 0 <= i < |pieces| ==> sep !in pieces[i]
  {
    if |s| == 0 then [""]
    else
      var rest := Explode(sep, s[1..]);
      if s[0] == sep then [""] + rest
      else [[s[0]] + rest[0]] + rest[1..]
  }

  /** `implode(sep, pieces)`: the pieces joined with one `sep` between neighbours. */
  function Implode(sep: char, pieces: seq<string>): (s: string)
    requires |pieces| >= 1
    ensures |s| >= |pieces| - 1
  {
    if |pieces| == 1 then pieces[0] else pieces[0] + [sep] + Implode(sep, pieces[1..])
  }

  /** Joining the pieces of `s` back together gives `s`: explode loses nothing. */
  lemma {:induction false} ImplodeExplode(sep: char, s: string)
    ensures Implode(sep, Explode(sep, s)) == s
  {
    if |s| > 0 {
      var rest := Explode(sep, s[1..]);
      ImplodeExplode(sep, s[1..]);
      if s[0] == sep {
        assert Explode(sep, s) == [""] + rest;
        assert ([""] + rest)[1..] == rest;
        assert s == [sep] + s[1..];
      } else if |rest| == 1 {
        assert Explode(sep, s) == [[s[0]] + rest[0]];
        assert s == [s[0]] + s[1..];
      } else {
        var pieces := Explode(sep, s);
        assert pieces == [[s[0]] + rest[0]] + rest[1..];
        assert pieces[1..] == rest[1..];
        calc {
          Implode(sep, pieces);
          ([s[0]] + rest[0]) + [sep] + Implode(sep, rest[1..]);
          [s[0]] + (rest[0] + [sep] + Implode(sep, rest[1..]));
          [s[0]] + Implode(sep, rest);
          [s[0]] + s[1..];
          s;
        }
      }
    }
  }

  /** `explode` yields one more piece than there are delimiters in its input. */
  lemma {:induction false} ExplodeCount(sep: char, s: string)
    ensures |Explode(sep, s)| == Occurrences(sep, s) + 1
  {
    if |s| > 0 {
      ExplodeCount(sep, s[1..]);
    }
  }

  /** A string without the delimiter explodes to itself alone. */
  lemma {:induction false} ExplodeWithoutDelimiter(sep: char, a: string)
    requires sep !in a
    ensures Explode(sep, a) == [a]
  {
    if |a| > 0 {
      ExplodeWithoutDelimiter(sep, a[1..]);
      assert a == [a[0]] + a[1..];
    }
  }

  /** Exploding `a + sep + b`, where `a` holds no delimiter, splits off exactly `a`. */
  lemma {:induction false} ExplodeAfterPiece(sep: char, a: string, b: string)
    requires sep !in a
    ensures Explode(sep, a + [sep] + b) == [a] + Explode(sep, b)
  {
    var s := a + [sep] + b;
    if |a| == 0 {
      assert s == [sep] + b;
      assert s[1..] == b;
    } else {
      assert s[0] == a[0];
      assert s[1..] == a[1..] + [sep] + b;
      ExplodeAfterPiece(sep, a[1..], b);
      assert [a[0]] + a[1..] == a;
    }
  }

  /** Delimiter-free pieces survive a join followed by an explode: implode is explode's inverse too. */
  lemma {:induction false} ExplodeImplode(sep: char, pieces: seq<string>)
    requires |pieces| >= 1
    requires forall i :: 0 <= i < |pieces| ==> sep !in pieces[i]
    ensures Explode(sep, Implode(sep, pieces)) == pieces
  {
    if |pieces| == 1 {
      ExplodeWithoutDelimiter(sep, pieces[0]);
    } else {
      assert sep !in pieces[0];
      ExplodeImplode(sep, pieces[1..]);
      ExplodeAfterPiece(sep, pieces[0], Implode(sep, pieces[1..]));
      assert [pieces[0]] + pieces[1..] == pieces;
    }
  }
}
