/** Comma splitting and joining of directive values, as PHP's explode(',', s)
    and implode(',', ts) behave on them. */
module Strings {

  /** The separator every list-valued directive is split on. */
  const Comma: char := ','

  /** explode(',', s): the maximal comma-free pieces of `s`, in order.
      The empty string yields one empty token; `"a,,b"` yields `["a", "", "b"]`. */
  function Split(s: string): (r: seq<string>)
    ensures |r| >= 1
    ensures forall i :: 0 <= i < |r| ==> Comma !in r[i]
    decreases |s|
  {
    if |s| == 0 then [""]
    else
      var rest := Split(s[1..]);
      if s[0] == Comma then [""] + rest
      else [[s[0]] + rest[0]] + rest[1..]
  }

  /** implode(',', ts): the tokens glued together with commas in between. */
  function Join(ts: seq<string>): string
    decreases |ts|
  {
    if |ts| == 0 then ""
    else if |ts| == 1 then ts[0]
    else ts[0] + [Comma] + Join(ts[1..])
  }

  /** Number of commas in `s`. */
  function Commas(s: string): nat
    decreases |s|
  {
    if |s| == 0 then 0 else (if s[0] == Comma then 1 else 0) + Commas(s[1..])
  }

  /** Splitting yields one token more than there are commas. */
  lemma {:induction false} SplitLength(s: string)
    ensures |Split(s)| == Commas(s) + 1
    decreases |s|
  {
    if |s| > 0 {
      SplitLength(s[1..]);
    }
  }

  /** Joining the tokens with commas gives back the split string. */
  lemma {:induction false} JoinSplit(s: string)
    ensures Join(Split(s)) == s
    decreases |s|
  {
    if |s| > 0 {
      var rest := Split(s[1..]);
      JoinSplit(s[1..]);
      if s[0] == Comma {
        assert Split(s) == [""] + rest;
        assert Join(Split(s)) == "" + [Comma] + Join(rest);
        assert s == [s[0]] + s[1..];
      } else if |rest| == 1 {
        assert Split(s) == [[s[0]] + rest[0]];
        assert s == [s[0]] + s[1..];
      } else {
        var head := [s[0]] + rest[0];
        assert Split(s) == [head] + rest[1..];
        assert Join(Split(s)) == head + [Comma] + Join(rest[1..]) by {
          assert ([head] + rest[1..])[1..] == rest[1..];
        }
        assert Join(rest) == rest[0] + [Comma] + Join(rest[1..]);
        assert s == [s[0]] + s[1..];
      }
    }
  }

  /** A comma-free string splits into itself. */
  lemma {:induction false} SplitNoComma(s: string)
    requires Comma !in s
    ensures Split(s) == [s]
    decreases |s|
  {
    if |s| > 0 {
      assert s[0] != Comma;
      assert Comma !in s[1..] by {
        forall i | 0 <= i < |s[1..]| ensures s[1..][i] != Comma {
          assert s[1..][i] == s[i + 1];
        }
      }
      SplitNoComma(s[1..]);
      assert s == [s[0]] + s[1..];
    }
  }

  /** A comma-free prefix followed by a comma splits off as the first token. */
  lemma {:induction false} SplitPrefix(a: string, b: string)
    requires Comma !in a
    ensures Split(a + [Comma] + b) == [a] + Split(b)
    decreases |a|
  {
    if |a| == 0 {
      assert a + [Comma] + b == [Comma] + b;
      assert ([Comma] + b)[1..] == b;
    } else {
      var s := a + [Comma] + b;
      assert s[1..] == a[1..] + [Comma] + b;
      assert Comma !in a[1..] by {
        forall i | 0 <= i < |a[1..]| ensures a[1..][i] != Comma {
          assert a[1..][i] == a[i + 1];
        }
      }
      SplitPrefix(a[1..], b);
      assert s[0] == a[0] != Comma;
      assert [a[0]] + a[1..] == a;
    }
  }

  /** Splitting a join of comma-free tokens gives back the tokens. */
  lemma {:induction false} SplitJoin(ts: seq<string>)
    requires |ts| >= 1
    requires forall i :: 0 <= i < |ts| ==> Comma !in ts[i]
    ensures Split(Join(ts)) == ts
    decreases |ts|
  {
    if |ts| == 1 {
      SplitNoComma(ts[0]);
    } else {
      SplitJoin(ts[1..]);
      SplitPrefix(ts[0], Join(ts[1..]));
      assert [ts[0]] + ts[1..] == ts;
    }
  }
}
