/**
 * `list_t`: a singly linked list of C strings. The configured script paths
 * and the package watch-list are both held in one of these. Elements are
 * `Option<string>` because a list node may hold NULL.
 */
module StringList {
  import opened Wrappers

  /** One `list_t` node. Its value is set once, its `next` link is patched by append. */
  class Node {
    const value: Option<string>
    var next: Node?

    constructor (value: Option<string>)
      ensures this.value == value && next == null
    {
      this.value := value;
      next := null;
    }
  }

  /**
   * A list handle: `head` is the `list_t *` the C code passes around (NULL for
   * the empty list). `nodes` is the chain of nodes reachable from `head` and
   * `Contents` the values they hold, in list order.
   */
  class StrList {
    var head: Node?
    ghost var nodes: seq<Node>
    ghost var Contents: seq<Option<string>>
    ghost var Repr: set<object>

    ghost predicate Valid()
      reads this, Repr
      ensures Valid() ==> this in Repr
    {
      && this in Repr
      && |nodes| == |Contents|
      && (forall i | 0 <= i < |nodes| :: nodes[i] in Repr && nodes[i].value == Contents[i])
      && (forall i, j | 0 <= i < j < |nodes| :: nodes[i] != nodes[j])
      && head == (if nodes == [] then null else nodes[0])
      && (forall i | 0 <= i < |nodes| :: nodes[i].next == null <==> i == |nodes| - 1)
      && (forall i | 0 <= i < |nodes| - 1 :: nodes[i].next == nodes[i + 1])
    }

    /** The NULL list. */
    constructor ()
      ensures Valid() && fresh(Repr) && Contents == [] && head == null
    {
      head := null;
      nodes, Contents, Repr := [], [], {this};
    }

    /**
     * `list_append`: allocate a node for `value`; on the empty list it becomes
     * the head, otherwise the walk reaches the last node and links it there,
     * leaving the head as it was.
     */
    method Append(value: Option<string>)
      requires Valid()
      modifies Repr
      ensures Valid() && fresh(Repr - old(Repr))
      ensures Contents == old(Contents) + [value]
      ensures old(head) != null ==> head == old(head)
      ensures old(head) == null ==> head != null && head.value == value && head.next == null
    {
      var element := new Node(value);
      if head == null {
        head := element;
        nodes, Contents, Repr := [element], [value], Repr + {element};
        return;
      }
      var last := head;
      ghost var i := 0;
      while last.next != null
        invariant Valid() && 0 <= i < |nodes| && last == nodes[i]
        decreases |nodes| - i
      {
        last := last.next;
        i := i + 1;
      }
      last.next := element;
      nodes, Contents, Repr := nodes + [element], Contents + [value], Repr + {element};
    }

    /**
     * `list_contains`: scan from the head; a non-NULL element matches a query
     * equal to it, a NULL element matches only a NULL query. The C code
     * compares a non-NULL element with a NULL query through `strcmp`, which is
     * undefined, so a NULL query requires that no non-NULL element comes
     * before the first NULL one.
     */
    method Contains(value: Option<string>) returns (found: bool)
      requires Valid()
      requires value.None? ==>
        forall k | 0 <= k < |Contents| && Contents[k].Some? :: None in Contents[..k]
      ensures found <==> value in Contents
    {
      var cur := head;
      ghost var i := 0;
      while cur != null
        invariant 0 <= i <= |nodes|
        invariant cur == if i < |nodes| then nodes[i] else null
        invariant value !in Contents[..i]
        decreases |nodes| - i
      {
        if cur.value.Some? {
          if value == cur.value {
            return true;
          }
        } else if value.None? {
          return true;
        }
        cur := cur.next;
        i := i + 1;
      }
      assert Contents[..i] == Contents;
      return false;
    }
  }

  /**
   * What reading a configuration array yields: the items in order, skipping
   * NULL items (UCL parses "" as NULL) and every item already kept.
   */
  function ConfigList(items: seq<Option<string>>): seq<Option<string>>
  {
    if items == [] then []
    else
      var kept := ConfigList(items[..|items| - 1]);
      var item := items[|items| - 1];
      if item.Some? && item !in kept then kept + [item] else kept
  }

  /** `read_list_from_config`: the dedup loop over the configuration array. */
  method ReadListFromConfig(items: seq<Option<string>>) returns (list: StrList)
    ensures fresh(list.Repr) && list.Valid()
    ensures list.Contents == ConfigList(items)
  {
    list := new StrList();
    for k := 0 to |items|
      invariant fresh(list.Repr) && list.Valid()
      invariant list.Contents == ConfigList(items[..k])
    {
      assert items[..k + 1][..k] == items[..k];
      var item := items[k];
      if item.Some? {
        var present := list.Contains(item);
        if !present {
          list.Append(item);
        }
      }
    }
    assert items[..|items|] == items;
  }

  /** The position of the first occurrence of `x` in `s`. */
  function IndexOf<T(==)>(s: seq<T>, x: T): (k: nat)
    requires x in s
    ensures k < |s| && s[k] == x && x !in s[..k]
  {
    if s[0] == x then 0 else 1 + IndexOf(s[1..], x)
  }

  /** The first occurrence of `x` in a prefix of `s` is its first occurrence in `s`. */
  lemma {:induction false} IndexOfPrefix<T>(s: seq<T>, m: nat, x: T)
    requires m <= |s| && x in s[..m]
    ensures x in s && IndexOf(s, x) == IndexOf(s[..m], x)
  {
    if s[0] != x {
      assert s[1..][..m - 1] == s[..m][1..];
      IndexOfPrefix(s[1..], m - 1, x);
    }
  }

  /** Every kept item is a non-NULL input, and every non-NULL input is kept. */
  lemma {:induction false} ConfigListMembers(items: seq<Option<string>>)
    ensures forall x :: x in ConfigList(items) <==> x.Some? && x in items
  {
    if items != [] {
      var prefix := items[..|items| - 1];
      ConfigListMembers(prefix);
      assert items == prefix + [items[|items| - 1]];
    }
  }

  /** The list read from the configuration holds no value twice. */
  lemma {:induction false} ConfigListNoDuplicates(items: seq<Option<string>>)
    ensures forall i, j | 0 <= i < j < |ConfigList(items)| :: ConfigList(items)[i] != ConfigList(items)[j]
  {
    if items != [] {
      ConfigListNoDuplicates(items[..|items| - 1]);
    }
  }

  /** Kept values appear in the order of their first occurrence in the input. */
  lemma {:induction false} ConfigListFirstOccurrenceOrder(items: seq<Option<string>>)
    ensures forall k | 0 <= k < |ConfigList(items)| :: ConfigList(items)[k] in items
    ensures forall i, j | 0 <= i < j < |ConfigList(items)| ::
      IndexOf(items, ConfigList(items)[i]) < IndexOf(items, ConfigList(items)[j])
  {
    ConfigListMembers(items);
    if items != [] {
      var n := |items| - 1;
      var prefix := items[..n];
      var kept := ConfigList(prefix);
      var r := ConfigList(items);
      ConfigListFirstOccurrenceOrder(prefix);
      ConfigListMembers(prefix);
      assert prefix == items[..n];
      forall k | 0 <= k < |kept|
        ensures IndexOf(items, kept[k]) == IndexOf(prefix, kept[k]) < n
      {
        IndexOfPrefix(items, n, kept[k]);
      }
      if r != kept {
        var x := items[n];
        assert x !in items[..n];
        assert IndexOf(items, x) == n;
      }
    }
  }

  /** The list has exactly as many entries as there are distinct non-NULL inputs. */
  lemma {:induction false} ConfigListSize(items: seq<Option<string>>)
    ensures |ConfigList(items)| == |set x | x in items && x.Some?|
  {
    if items != [] {
      var n := |items| - 1;
      var prefix := items[..n];
      var item := items[n];
      ConfigListSize(prefix);
      ConfigListMembers(prefix);
      assert items == prefix + [item];
      var before := set x | x in prefix && x.Some?;
      var after := set x | x in items && x.Some?;
      if item.Some? && item !in ConfigList(prefix) {
        assert after == before + {item};
        assert item !in before;
      } else {
        assert after == before;
      }
    }
  }
}
