/** The list of copied deliveries as the program keeps it: cells linked from the
    first to the last, the last one known so that new deliveries join in order. */
module DeliveryList {
  import opened Wrappers
  import opened Replica
  import opened Writer
  import opened Follower

  class Cell {
    var item: Delivery
    var next: Cell?

    constructor (item: Delivery)
      ensures this.item == item && next == null
    {
      this.item := item;
      next := null;
    }
  }

  class Deliveries {
    var first: Cell?
    var last: Cell?
    ghost var cells: seq<Cell>
    ghost var repr: set<Cell>

    ghost function At(i: nat): (c: Cell?)
      reads this`cells
    {
      if i < |cells| then cells[i] else null
    }

    ghost predicate Leads(i: nat)
      requires i < |cells| && cells[i] in repr
      reads this`cells, this`repr, repr`next
    {
      cells[i].next == At(i + 1)
    }

    ghost predicate Distinct()
      reads this`cells
    {
      forall i, k | 0 <= i < k < |cells| :: cells[i] != cells[k]
    }

    /** Each cell leads to the one after it; the last is the end of the list, and
        none if the list is empty. */
    ghost predicate Linked()
      reads this, repr`next
    {
      && Distinct() && (forall i | 0 <= i < |cells| :: cells[i] in repr)
      && first == At(0)
      && last == (if cells == [] then null else cells[|cells| - 1])
      && (forall i | 0 <= i < |cells| :: Leads(i))
    }

    /** The cells hold these deliveries. */
    ghost predicate Holds(ds: seq<Delivery>)
      reads this`cells, this`repr, repr`item
    {
      |ds| == |cells| && forall i | 0 <= i < |cells| :: cells[i] in repr && cells[i].item == ds[i]
    }

    constructor ()
      ensures Linked() && Holds([]) && repr == {}
    {
      first, last := null, null;
      cells, repr := [], {};
    }

    /** A new delivery joins behind the last one. */
    method Append(item: Delivery, ghost ds: seq<Delivery>) returns (c: Cell)
      requires Linked() && Holds(ds)
      modifies this, repr
      ensures Linked() && Holds(ds + [item]) && fresh(c)
      ensures cells == old(cells) + [c] && repr == old(repr) + {c}
    {
      c := new Cell(item);
      if last != null {
        last.next := c;
      } else {
        first := c;
      }
      last := c;
      cells, repr := cells + [c], repr + {c};
      forall n | 0 <= n < |cells| ensures Leads(n) {
        assert n < |cells| - 1 ==> old(Leads(n));
      }
    }

    /** Replace what the cell at position i holds. */
    method Put(c: Cell, item: Delivery, ghost i: nat, ghost ds: seq<Delivery>)
      requires Linked() && Holds(ds) && i < |cells| && cells[i] == c
      modifies c`item
      ensures Linked() && Holds(ds[i := item]) && cells == old(cells)
    {
      c.item := item;
    }

    /** The cell before c. The list holds c, or the program would stop. */
    method Before(c: Cell, ghost i: nat) returns (before: Cell?)
      requires Linked() && i < |cells| && cells[i] == c
      ensures before == if i == 0 then null else cells[i - 1]
    {
      before := null;
      var at := first;
      ghost var k := 0;
      while at != null && at != c
        invariant k <= i && at == At(k) && before == (if k == 0 then null else cells[k - 1])
        decreases |cells| - k
      {
        assert Leads(k);
        before := at;
        at := at.next;
        k := k + 1;
      }
      if at == null {
        assert false;
      }
    }

    /** Lead past c. The end may still be c. */
    method Bypass(c: Cell, ghost i: nat)
      requires Linked() && i < |cells| && cells[i] == c
      modifies this`first, this`cells, repr`next
      ensures cells == old(cells)[..i] + old(cells)[i + 1..]
      ensures Distinct() && (forall n | 0 <= n < |cells| :: cells[n] in repr)
      ensures first == At(0) && forall n | 0 <= n < |cells| :: Leads(n)
    {
      var before := Before(c, i);
      ghost var was := cells;
      if before == null {
        first := c.next;
      } else {
        before.next := c.next;
      }
      cells := cells[..i] + cells[i + 1..];
      forall n | 0 <= n < |cells| ensures Leads(n) {
        assert old(Leads(if n < i then n else n + 1)) && old(Leads(i));
        assert cells[n] == was[if n < i then n else n + 1];
        assert n + 1 < |cells| ==> cells[n + 1] == was[if n + 1 < i then n + 1 else n + 2];
      }
    }

    /** Take a cell out of the list; when it was the last, the end is sought again
        from the front. */
    method Unlink(c: Cell, ghost i: nat, ghost ds: seq<Delivery>)
      requires Linked() && Holds(ds) && i < |cells| && cells[i] == c
      modifies this`first, this`last, this`cells, repr`next
      ensures Linked() && Holds(ds[..i] + ds[i + 1..])
      ensures cells == old(cells)[..i] + old(cells)[i + 1..]
    {
      ghost var was := cells;
      Bypass(c, i);
      if last == c {
        FindLast();
      }
      forall n | 0 <= n < |cells| ensures cells[n].item == (ds[..i] + ds[i + 1..])[n] {
        assert cells[n] == was[if n < i then n else n + 1];
      }
    }

    /** The last cell is the one that the walk ends with. */
    method FindLast()
      requires Distinct() && (forall n | 0 <= n < |cells| :: cells[n] in repr)
      requires first == At(0) && forall n | 0 <= n < |cells| :: Leads(n)
      modifies this`last
      ensures Linked()
    {
      last := null;
      var at := first;
      ghost var k := 0;
      while at != null
        invariant k <= |cells| && at == At(k) && last == (if k == 0 then null else cells[k - 1])
        decreases |cells| - k
      {
        assert Leads(k);
        last := at;
        at := at.next;
        k := k + 1;
      }
    }
  }
}
