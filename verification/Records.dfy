/** Values shared by every part of the model. */
module Records {

  datatype Option<+T> = None | Some(value: T)

  /** A Python call that returns a value or raises `ValueError` / `RuntimeError`. */
  datatype Result<+T> = Ok(value: T) | Err(error: string)

  /** The part of `logging.LogRecord` that the handlers read. */
  datatype LogRecord = LogRecord(name: string, levelno: int, message: string)

  const DEBUG := 10
  const INFO := 20
  const WARNING := 30
  const ERROR := 40
  const CRITICAL := 50
}

/** Order-preserving selection, the vocabulary of every FIFO claim. */
module Sequences {

  /** `sub` is obtained from `all` by deleting elements, keeping the order of the rest. */
  ghost predicate Subsequence<T>(sub: seq<T>, all: seq<T>) {
    sub == [] ||
    (all != [] &&
     if sub[|sub| - 1] == all[|all| - 1] && Subsequence(sub[..|sub| - 1], all[..|all| - 1])
     then true
     else Subsequence(sub, all[..|all| - 1]))
  }

  lemma ConcatAssoc<T>(a: seq<T>, b: seq<T>, c: seq<T>)
    ensures a + b + c == a + (b + c)
  {
  }

  lemma {:induction false} SubsequenceRefl<T>(s: seq<T>)
    ensures Subsequence(s, s)
  {
    if s != [] {
      SubsequenceRefl(s[..|s| - 1]);
    }
  }

  /** Appending to the long side keeps the relation; appending the same element to both does too. */
  lemma SubsequenceSnoc<T>(sub: seq<T>, all: seq<T>, x: T)
    requires Subsequence(sub, all)
    ensures Subsequence(sub, all + [x])
    ensures Subsequence(sub + [x], all + [x])
  {
    assert (all + [x])[..|all|] == all;
    assert (sub + [x])[..|sub|] == sub;
  }

  lemma {:induction false} SubsequenceAppend<T>(sub: seq<T>, all: seq<T>, more: seq<T>)
    requires Subsequence(sub, all)
    ensures Subsequence(sub, all + more)
    decreases |more|
  {
    if more == [] {
      assert all + more == all;
    } else {
      SubsequenceSnoc(sub, all, more[0]);
      SubsequenceAppend(sub, all + [more[0]], more[1..]);
      assert all + [more[0]] + more[1..] == all + more;
    }
  }

  /** Dropping the last element of the short side keeps the relation. */
  lemma {:induction false} SubsequenceInit<T>(sub: seq<T>, x: T, all: seq<T>)
    requires Subsequence(sub + [x], all)
    ensures Subsequence(sub, all)
  {
    assert (sub + [x])[..|sub|] == sub;
    var a := all[..|all| - 1];
    if x == all[|all| - 1] && Subsequence(sub, a) {
      assert all == a + [x];
      SubsequenceSnoc(sub, a, x);
    } else {
      SubsequenceInit(sub, x, a);
      assert all == a + [all[|all| - 1]];
      SubsequenceSnoc(sub, a, all[|all| - 1]);
    }
  }

  /** Every element kept occurs no more often than in the original. */
  lemma {:induction false} SubsequenceCounts<T>(sub: seq<T>, all: seq<T>)
    requires Subsequence(sub, all)
    ensures multiset(sub) <= multiset(all)
  {
    if sub != [] {
      var a := all[..|all| - 1];
      assert all == a + [all[|all| - 1]];
      assert sub == sub[..|sub| - 1] + [sub[|sub| - 1]];
      if sub[|sub| - 1] == all[|all| - 1] && Subsequence(sub[..|sub| - 1], a) {
        SubsequenceCounts(sub[..|sub| - 1], a);
      } else {
        SubsequenceCounts(sub, a);
      }
    }
  }
}
