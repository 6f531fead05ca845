/** The option and result types, and facts about collections used by the other modules. */
module Collections {

  datatype Option<+T> = None | Some(value: T)

  datatype Result<+T> = Ok(value: T) | Err(reason: string)

  function Flatten<T>(parts: seq<seq<T>>): seq<T> {
    if parts == [] then [] else parts[0] + Flatten(parts[1..])
  }

  lemma Associative<T>(a: seq<T>, b: seq<T>, c: seq<T>)
    ensures a + b + c == a + (b + c)
  {
  }

  /** The first n ids the database will hand out are new to the table, and distinct. */
  ghost predicate FreshIds<T>(table: map<nat, T>, ids: nat -> nat, n: nat) {
    && (forall i: nat :: i < n ==> ids(i) !in table)
    && (forall i: nat, j: nat :: i < j < n ==> ids(i) != ids(j))
  }

  lemma Pick<T>(s: set<T>) returns (x: T)
    requires |s| > 0
    ensures x in s
  {
    x :| x in s;
  }

  /** There is always another number. */
  lemma Unused(s: set<nat>) returns (n: nat)
    ensures n !in s
  {
    n := Above(s);
  }

  lemma {:induction false} Above(s: set<nat>) returns (n: nat)
    ensures forall x :: x in s ==> x < n
    decreases |s|
  {
    if |s| == 0 {
      n := 0;
    } else {
      var x := Pick(s);
      var rest := Above(s - {x});
      n := if x < rest then rest else x + 1;
      forall y | y in s ensures y < n {
        assert y == x || y in s - {x};
      }
    }
  }

  lemma SubsetSize<T>(a: set<T>, b: set<T>)
    requires a <= b
    ensures |a| <= |b|
  {
    assert b == a + (b - a);
  }

  /** How many of the first n calls work. */
  function CountUp(up: nat -> bool, n: nat): nat {
    if n == 0 then 0 else CountUp(up, n - 1) + (if up(n - 1) then 1 else 0)
  }
}
