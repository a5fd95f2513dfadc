/**
 Row locks on runs (packages/core/src/children/run-locks.ts): a transaction's first lock
 is any row, and every further one is on a row it already holds or on a child of one. Under
 that discipline no set of transactions ever waits in a circle.
 */
module RunLocks {
  import opened WorkflowTypes
  import opened CloseCascade

  /** A transaction: the rows it locked, in order, and the row it waits for. */
  datatype Transaction = Transaction(held: seq<nat>, wanted: Option<nat>)

  /** Each row's parent row; rows are named in the order of their insertion. */
  type Parents = seq<Option<nat>>

  predicate IsTree(parents: Parents) {
    forall x :: 0 <= x < |parents| && parents[x].Some? ==> parents[x].value < x
  }

  predicate IsChildOf(parents: Parents, row: nat, held: seq<nat>) {
    row < |parents| && parents[row].Some? && parents[row].value in held
  }

  /** What a transaction may ask for: any row at first, then rows it has already and children of those. */
  predicate MayRequest(parents: Parents, held: seq<nat>, row: nat) {
    row < |parents| && (held == [] || row in held || IsChildOf(parents, row, held))
  }

  /** Every lock after the first is on a child of a row locked before. */
  predicate Disciplined(parents: Parents, held: seq<nat>) {
    forall i :: 1 <= i < |held| ==> IsChildOf(parents, held[i], held[..i])
  }

  /** The rows held once `row` is granted; a row held already stays held once. */
  function WithLock(held: seq<nat>, row: nat): seq<nat> {
    if row in held then held else held + [row]
  }

  /** The rows held once all of `locks` are granted, in order. */
  function WithLocks(held: seq<nat>, locks: seq<nat>): seq<nat>
    decreases |locks|
  {
    if locks == [] then held else WithLocks(WithLock(held, locks[0]), locks[1..])
  }

  /** Locks taken in order are all at or below the first one. */
  lemma {:induction false} HeldIsBelowTop(parents: Parents, held: seq<nat>, i: nat)
    requires IsTree(parents) && Disciplined(parents, held) && i < |held|
    ensures held[0] <= held[i]
    decreases i
  {
    if i > 0 {
      assert IsChildOf(parents, held[i], held[..i]);
      var j :| 0 <= j < i && held[j] == parents[held[i]].value;
      HeldIsBelowTop(parents, held, j);
    }
  }

  lemma {:induction false} ParentWasHeld(parents: Parents, held: seq<nat>, k: nat)
    requires Disciplined(parents, held) && 1 <= k < |held|
    ensures held[k] < |parents| && parents[held[k]].Some? && parents[held[k]].value in held
  {
    assert IsChildOf(parents, held[k], held[..k]);
  }

  class LockTable {
    var parents: Parents
    var transactions: map<nat, Transaction>

    /** Whether `t` waits for a row that `u` holds. */
    predicate Waits(t: nat, u: nat)
      reads this
    {
      t in transactions && u in transactions && t != u && transactions[t].wanted.Some? &&
      transactions[t].wanted.value in transactions[u].held
    }

    ghost predicate Valid()
      reads this
    {
      IsTree(parents) &&
      (forall t :: t in transactions ==>
         Disciplined(parents, transactions[t].held) &&
         (transactions[t].wanted.Some? ==> MayRequest(parents, transactions[t].held, transactions[t].wanted.value))) &&
      forall t, u, row :: t in transactions && u in transactions && t != u && row in transactions[t].held ==>
        row !in transactions[u].held
    }

    constructor ()
      ensures Valid() && transactions == map[] && parents == []
    {
      parents, transactions := [], map[];
    }

    /** Inserts a run row under an existing one, or on its own. */
    method Insert(parent: Option<nat>) returns (row: nat)
      requires Valid() && (parent.Some? ==> parent.value < |parents|)
      modifies this`parents
      ensures Valid() && row == |old(parents)| && parents == old(parents) + [parent]
    {
      row := |parents|;
      forall t | t in transactions
        ensures Disciplined(parents + [parent], transactions[t].held)
      {
        forall i | 1 <= i < |transactions[t].held|
          ensures IsChildOf(parents + [parent], transactions[t].held[i], transactions[t].held[..i])
        {
          assert IsChildOf(parents, transactions[t].held[i], transactions[t].held[..i]);
        }
      }
      forall t | t in transactions && transactions[t].wanted.Some?
        ensures MayRequest(parents + [parent], transactions[t].held, transactions[t].wanted.value)
      {
      }
      parents := parents + [parent];
    }

    method Begin(t: nat)
      requires Valid() && t !in transactions
      modifies this`transactions
      ensures Valid() && transactions == old(transactions)[t := Transaction([], None)]
    {
      transactions := transactions[t := Transaction([], None)];
    }

    /** Asks for a row lock: any row at first, then rows already locked, again, and their children. */
    method Request(t: nat, row: nat)
      requires Valid() && t in transactions && transactions[t].wanted.None? && MayRequest(parents, transactions[t].held, row)
      modifies this`transactions
      ensures Valid() && transactions == old(transactions)[t := Transaction(old(transactions)[t].held, Some(row))]
    {
      transactions := transactions[t := transactions[t].(wanted := Some(row))];
    }

    /** Grants a wanted row nobody else holds. */
    method Grant(t: nat)
      requires Valid() && t in transactions && transactions[t].wanted.Some?
      requires forall u :: !Waits(t, u)
      modifies this`transactions
      ensures Valid()
      ensures transactions == old(transactions)[t :=
        Transaction(WithLock(old(transactions)[t].held, old(transactions)[t].wanted.value), None)]
    {
      var held, row := transactions[t].held, transactions[t].wanted.value;
      var more := WithLock(held, row);
      forall u | u in transactions && u != t
        ensures row !in transactions[u].held
      {
        assert !Waits(t, u);
      }
      assert Disciplined(parents, more) by {
        forall i | 1 <= i < |more|
          ensures IsChildOf(parents, more[i], more[..i])
        {
          if i < |held| {
            assert IsChildOf(parents, held[i], held[..i]) && held[..i] == more[..i];
          } else {
            assert more[..i] == held;
          }
        }
      }
      transactions := transactions[t := Transaction(more, None)];
    }

    /** Ends a transaction, whether it commits or is rolled back: its locks are gone. */
    method End(t: nat)
      requires Valid() && t in transactions
      modifies this`transactions
      ensures Valid() && transactions == old(transactions) - {t}
    {
      transactions := transactions - {t};
    }

    /** A transaction waits only for one whose first lock is below its own first lock. */
    lemma WaitsDownwards(t: nat, u: nat)
      requires Valid() && Waits(t, u) && transactions[t].held != []
      ensures transactions[u].held != [] && transactions[t].held[0] < transactions[u].held[0]
    {
      var row := transactions[t].wanted.value;
      var mine, theirs := transactions[t].held, transactions[u].held;
      assert row in theirs && row !in mine;
      var parent := parents[row].value;
      assert parent in mine && parent !in theirs;
      var i :| 0 <= i < |mine| && mine[i] == parent;
      HeldIsBelowTop(parents, mine, i);
      forall k | 1 <= k < |theirs|
        ensures theirs[k] != row
      {
        ParentWasHeld(parents, theirs, k);
      }
    }

    /** `path` is a chain of transactions each of which waits for the next. */
    predicate IsChain(path: seq<nat>)
      reads this
    {
      forall i :: 0 <= i < |path| - 1 ==> Waits(path[i], path[i + 1])
    }

    lemma ChainGoesDown(path: seq<nat>)
      requires Valid() && IsChain(path) && |path| > 1
      requires path[0] in transactions && transactions[path[0]].held != []
      ensures path[|path| - 1] in transactions && transactions[path[|path| - 1]].held != []
      ensures transactions[path[0]].held[0] < transactions[path[|path| - 1]].held[0]
    {
      var last := |path| - 1;
      if last == 1 {
        WaitsDownwards(path[0], path[1]);
      } else {
        assert path[..last][|path[..last]| - 1] == path[last - 1];
        assert IsChain(path[..last]) by {
          forall i | 0 <= i < last - 1
            ensures Waits(path[..last][i], path[..last][i + 1])
          {
            assert Waits(path[i], path[i + 1]);
          }
        }
        ChainGoesDown(path[..last]);
        assert Waits(path[last - 1], path[last]);
        WaitsDownwards(path[last - 1], path[last]);
      }
    }

    /** No deadlock: no chain of waiting transactions comes back to where it began. */
    lemma NoDeadlock(path: seq<nat>)
      requires Valid() && |path| > 1 && IsChain(path)
      ensures path[0] != path[|path| - 1]
    {
      var last := |path| - 1;
      assert Waits(path[0], path[1]);
      if path[0] == path[last] {
        assert Waits(path[last - 1], path[last]);
        assert transactions[path[0]].held != [];
        ChainGoesDown(path);
      }
    }
  }

  // ---- the closing of a run keeps to the discipline ---------------------------------------

  /** The row locks that applying the close policies of `r` takes, in order. */
  function PolicyLocks(runs: Runs, r: nat, count: nat): seq<nat>
    decreases if r < count then count - r else 0, 1, 0
  {
    var children := OpenChildren(runs, r, count);
    children + EachChild(runs, r, count, children)
  }

  /** The locks of closing each terminated child in turn: it locks its parent again, then its own children. */
  function EachChild(runs: Runs, r: nat, count: nat, children: seq<nat>): seq<nat>
    decreases if r < count then count - r else 0, 0, |children|
  {
    if children == [] then []
    else
      var c := children[0];
      (if r < c < count && c in runs && runs[c].link.policy == Some(Terminate) then [r] + PolicyLocks(runs, c, count) else []) +
      EachChild(runs, r, count, children[1..])
  }

  /** Each lock is on a row held before, or on a child of one. */
  predicate KeepsTo(runs: Runs, held: set<nat>, locks: seq<nat>)
    decreases |locks|
  {
    locks == [] ||
    ((locks[0] in held || (locks[0] in runs && runs[locks[0]].link.parent.Some? && runs[locks[0]].link.parent.value in held)) &&
     KeepsTo(runs, held + {locks[0]}, locks[1..]))
  }

  function Rows(locks: seq<nat>): set<nat> {
    set row | row in locks
  }

  lemma {:induction false} KeepsToConcat(runs: Runs, held: set<nat>, left: seq<nat>, right: seq<nat>)
    requires KeepsTo(runs, held, left) && KeepsTo(runs, held + Rows(left), right)
    ensures KeepsTo(runs, held, left + right)
    decreases |left|
  {
    if left == [] {
      assert left + right == right && held + Rows(left) == held;
    } else {
      assert held + {left[0]} + Rows(left[1..]) == held + Rows(left) by {
        assert forall row :: row in left <==> row == left[0] || row in left[1..];
      }
      KeepsToConcat(runs, held + {left[0]}, left[1..], right);
      assert (left + right)[1..] == left[1..] + right;
    }
  }

  lemma {:induction false} KeepsToMore(runs: Runs, held: set<nat>, more: set<nat>, locks: seq<nat>)
    requires KeepsTo(runs, held, locks) && held <= more
    ensures KeepsTo(runs, more, locks)
    decreases |locks|
  {
    if locks != [] {
      KeepsToMore(runs, held + {locks[0]}, more + {locks[0]}, locks[1..]);
    }
  }

  lemma {:induction false} ChildrenKeepTo(runs: Runs, held: set<nat>, r: nat, children: seq<nat>)
    requires r in held && forall i :: 0 <= i < |children| ==> IsOpenChild(runs, children[i], r)
    ensures KeepsTo(runs, held, children)
    decreases |children|
  {
    if children != [] {
      ChildrenKeepTo(runs, held + {children[0]}, r, children[1..]);
    }
  }

  /** Holding `r`, the whole closing cascade below it locks only rows it holds and children of rows it holds. */
  lemma {:induction false} PoliciesKeepTo(runs: Runs, held: set<nat>, r: nat, count: nat)
    requires r in held
    ensures KeepsTo(runs, held, PolicyLocks(runs, r, count))
    decreases if r < count then count - r else 0, 1, 0
  {
    var children := OpenChildren(runs, r, count);
    ChildrenKeepTo(runs, held, r, children);
    EachKeepsTo(runs, held + Rows(children), r, count, children);
    KeepsToConcat(runs, held, children, EachChild(runs, r, count, children));
  }

  lemma {:induction false} EachKeepsTo(runs: Runs, held: set<nat>, r: nat, count: nat, children: seq<nat>)
    requires r in held && Rows(children) <= held
    ensures KeepsTo(runs, held, EachChild(runs, r, count, children))
    decreases if r < count then count - r else 0, 0, |children|
  {
    if children != [] {
      var c := children[0];
      assert c in Rows(children);
      var first := if r < c < count && c in runs && runs[c].link.policy == Some(Terminate)
                   then [r] + PolicyLocks(runs, c, count) else [];
      if r < c < count && c in runs && runs[c].link.policy == Some(Terminate) {
        PoliciesKeepTo(runs, held, c, count);
        KeepsToMore(runs, held, held + Rows([r]), PolicyLocks(runs, c, count));
        assert KeepsTo(runs, held, [r]) by { assert [r][1..] == []; }
        KeepsToConcat(runs, held, [r], PolicyLocks(runs, c, count));
      }
      forall row | row in Rows(children[1..])
        ensures row in held
      {
        assert row in children;
      }
      EachKeepsTo(runs, held + Rows(first), r, count, children[1..]);
      KeepsToConcat(runs, held, first, EachChild(runs, r, count, children[1..]));
    }
  }

  /** The row locks that closing `r` takes, in order: its parent, itself, its parent again, and what its policies lock. */
  function ClosingLocks(runs: Runs, r: nat, count: nat): seq<nat>
    requires r in runs
  {
    (if runs[r].link.parent.Some? then [runs[r].link.parent.value, r, runs[r].link.parent.value] else [r]) + PolicyLocks(runs, r, count)
  }

  /** After the first, every lock of a closing is on a row held or on a child of one. */
  lemma {:induction false} ClosingKeepsTo(runs: Runs, r: nat, count: nat)
    requires r in runs
    ensures var locks := ClosingLocks(runs, r, count);
            locks != [] && KeepsTo(runs, {locks[0]}, locks[1..])
  {
    var locks := ClosingLocks(runs, r, count);
    if runs[r].link.parent.Some? {
      var p := runs[r].link.parent.value;
      assert [r, p][1..] == [p] && [p][1..] == [];
      assert KeepsTo(runs, {p} + {r}, [p]) && KeepsTo(runs, {p}, [r, p]);
      PoliciesKeepTo(runs, {p} + Rows([r, p]), r, count);
      KeepsToConcat(runs, {p}, [r, p], PolicyLocks(runs, r, count));
      assert locks[1..] == [r, p] + PolicyLocks(runs, r, count);
    } else {
      PoliciesKeepTo(runs, {r}, r, count);
      assert locks[1..] == PolicyLocks(runs, r, count);
    }
  }

  /** The lock table's tree is the one the run rows form. */
  predicate AreParents(parents: Parents, runs: Runs) {
    forall x :: x in runs ==> x < |parents| && parents[x] == runs[x].link.parent
  }

  /** A sequence of locks that keeps to what is held can be requested in order, each once those before it are granted. */
  lemma {:induction false} KeepingToMayBeRequested(parents: Parents, runs: Runs, held: seq<nat>, locks: seq<nat>, k: nat)
    requires AreParents(parents, runs) && (forall row :: row in held ==> row < |parents|)
    requires KeepsTo(runs, Rows(held), locks) && k < |locks|
    ensures MayRequest(parents, WithLocks(held, locks[..k]), locks[k])
    decreases k
  {
    if k > 0 {
      var more := WithLock(held, locks[0]);
      assert Rows(more) == Rows(held) + {locks[0]};
      assert locks[0] < |parents| by { assert locks[0] in Rows(held) ==> locks[0] in held; }
      KeepingToMayBeRequested(parents, runs, more, locks[1..], k - 1);
      assert locks[..k][1..] == locks[1..][..k - 1];
    } else {
      assert locks[0] in Rows(held) ==> locks[0] in held;
    }
  }

  /**
   Every lock of closing a run, whatever its family, is one the lock table lets its transaction
   ask for, so the closings are among the transactions that never wait in a circle.
   */
  lemma {:induction false} ClosingMayBeRequested(parents: Parents, runs: Runs, r: nat, count: nat, k: nat)
    requires AreParents(parents, runs) && r in runs && (runs[r].link.parent.Some? ==> runs[r].link.parent.value < |parents|)
    requires k < |ClosingLocks(runs, r, count)|
    ensures MayRequest(parents, WithLocks([], ClosingLocks(runs, r, count)[..k]), ClosingLocks(runs, r, count)[k])
  {
    var locks := ClosingLocks(runs, r, count);
    ClosingKeepsTo(runs, r, count);
    hide PolicyLocks, KeepsTo;
    assert locks[0] < |parents|;
    if k > 0 {
      assert WithLock([], locks[0]) == [locks[0]] && Rows([locks[0]]) == {locks[0]};
      KeepingToMayBeRequested(parents, runs, [locks[0]], locks[1..], k - 1);
      assert locks[..k][1..] == locks[1..][..k - 1];
    }
  }
}
