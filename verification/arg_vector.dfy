/**
  Reading a flat argument vector the way the generator's command line parser
  does: positions 0, 2, 4, ... hold flags, each followed by exactly one value,
  and a flag that occurs several times accumulates its values in order.
*/
module ArgVector {

  /**
    The values that follow `flag` at flag positions of `args`, in order. Its
    length is the number of times `flag` occurs as a flag; a value that happens
    to be spelled like a flag is never mistaken for one.
  */
  function ValuesOf(args: seq<string>, flag: string): (vs: seq<string>)
    decreases |args|
  {
    if |args| < 2 then []
    else (if args[0] == flag then [args[1]] else []) + ValuesOf(args[2..], flag)
  }

  /**
    The flag/value pairs of `args` whose flag is in `flags`, flattened again and
    in their original order.
  */
  function Select(args: seq<string>, flags: set<string>): (s: seq<string>)
    decreases |args|
  {
    if |args| < 2 then []
    else (if args[0] in flags then args[..2] else []) + Select(args[2..], flags)
  }

  /** `args` splits into flag/value pairs: its length is even, stated without arithmetic. */
  predicate Paired(args: seq<string>)
    decreases |args|
  {
    |args| == 0 || (|args| >= 2 && Paired(args[2..]))
  }

  /** `args` is a sequence of flag/value pairs whose every flag is drawn from `flags`. */
  predicate WellFormed(args: seq<string>, flags: set<string>)
    decreases |args|
  {
    |args| == 0 || (|args| >= 2 && args[0] in flags && WellFormed(args[2..], flags))
  }

  /** The recursive `WellFormed` says: even length, and a known flag at every even position. */
  lemma {:induction false} WellFormedMeansPairs(args: seq<string>, flags: set<string>)
    ensures WellFormed(args, flags) <==>
              |args| % 2 == 0 && forall i :: 0 <= i < |args| && i % 2 == 0 ==> args[i] in flags
    decreases |args|
  {
    if |args| >= 2 {
      WellFormedMeansPairs(args[2..], flags);
      if |args| % 2 == 0 && forall i :: 0 <= i < |args| && i % 2 == 0 ==> args[i] in flags {
        forall i | 0 <= i < |args[2..]| && i % 2 == 0
          ensures args[2..][i] in flags
        {
          assert args[2..][i] == args[i + 2];
        }
      }
      if WellFormed(args, flags) {
        forall i | 0 <= i < |args| && i % 2 == 0
          ensures args[i] in flags
        {
          if i >= 2 {
            assert args[i] == args[2..][i - 2];
          }
        }
      }
    }
  }

  lemma {:induction false} ValuesOfAppend(a: seq<string>, b: seq<string>, flag: string)
    requires Paired(a)
    ensures ValuesOf(a + b, flag) == ValuesOf(a, flag) + ValuesOf(b, flag)
    decreases |a|
  {
    if |a| == 0 {
      assert a + b == b;
    } else {
      assert (a + b)[2..] == a[2..] + b;
      ValuesOfAppend(a[2..], b, flag);
    }
  }

  lemma {:induction false} SelectAppend(a: seq<string>, b: seq<string>, flags: set<string>)
    requires Paired(a)
    ensures Select(a + b, flags) == Select(a, flags) + Select(b, flags)
    decreases |a|
  {
    if |a| == 0 {
      assert a + b == b;
    } else {
      assert (a + b)[2..] == a[2..] + b;
      assert (a + b)[..2] == a[..2];
      SelectAppend(a[2..], b, flags);
    }
  }

  lemma {:induction false} WellFormedIsPaired(args: seq<string>, flags: set<string>)
    requires WellFormed(args, flags)
    ensures Paired(args)
    decreases |args|
  {
    if |args| != 0 {
      WellFormedIsPaired(args[2..], flags);
    }
  }

  lemma {:induction false} WellFormedWiden(args: seq<string>, flags: set<string>, more: set<string>)
    requires WellFormed(args, flags) && flags <= more
    ensures WellFormed(args, more)
    decreases |args|
  {
    if |args| != 0 {
      WellFormedWiden(args[2..], flags, more);
    }
  }

  lemma {:induction false} WellFormedAppend(a: seq<string>, b: seq<string>, flags: set<string>)
    requires WellFormed(a, flags) && WellFormed(b, flags)
    ensures WellFormed(a + b, flags)
    decreases |a|
  {
    if |a| == 0 {
      assert a + b == b;
    } else {
      assert (a + b)[2..] == a[2..] + b;
      WellFormedAppend(a[2..], b, flags);
    }
  }

  /** What a reader sees of one flag/value pair. */
  lemma ReadPair(f: string, v: string, flags: set<string>, flag: string)
    ensures Paired([f, v])
    ensures f in flags ==> WellFormed([f, v], flags)
    ensures ValuesOf([f, v], flag) == if f == flag then [v] else []
  {
    assert [f, v][2..] == [];
  }

  /** `flag` paired with each of `vs` in turn, flattened: what a segment of that one flag looks like. */
  function Pairs(flag: string, vs: seq<string>): (r: seq<string>)
    ensures |r| == 2 * |vs|
  {
    if |vs| == 0 then [] else [flag, vs[0]] + Pairs(flag, vs[1..])
  }

  /**
    When `f` is the only flag of `selected` that can occur in `args`, selecting
    from `args` keeps exactly the pairs of `f`, so it is rebuilt from the values of `f`.
  */
  lemma {:induction false} SelectOneFlag(args: seq<string>, flags: set<string>, selected: set<string>, f: string)
    requires WellFormed(args, flags)
    requires f in selected && flags * selected <= {f}
    ensures Select(args, selected) == Pairs(f, ValuesOf(args, f))
    decreases |args|
  {
    if |args| != 0 {
      SelectOneFlag(args[2..], flags, selected, f);
      if args[0] == f {
        var rest := ValuesOf(args[2..], f);
        assert ([args[1]] + rest)[1..] == rest;
        assert args[..2] == [f, args[1]];
      } else {
        assert args[0] !in flags * selected;
        assert Select(args, selected) == Select(args[2..], selected);
        assert ValuesOf(args, f) == ValuesOf(args[2..], f);
      }
    }
  }

  /** Selecting flags that cannot occur in `args` selects nothing. */
  lemma {:induction false} SelectNone(args: seq<string>, flags: set<string>, selected: set<string>)
    requires WellFormed(args, flags) && flags !! selected
    ensures Select(args, selected) == []
    decreases |args|
  {
    if |args| != 0 {
      SelectNone(args[2..], flags, selected);
    }
  }
}
