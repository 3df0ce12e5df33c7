/**
 * `notification_t`: the store of package changes, a singly linked list of
 * (name, origin) pairs that only ever grows at the head. A node's fields are
 * set when it is created and never written again, so they are `const`.
 */
module Notifications {
  import opened PkgHost

  class Notification {
    const name: string
    const origin: string
    const next: Notification?
    /** The pairs held by this node and the nodes after it, in list order. */
    ghost const contents: seq<PkgId>

    ghost predicate Valid()
      decreases |contents|
    {
      && |contents| > 0
      && contents[0] == PkgId(name, origin)
      && (next == null ==> |contents| == 1)
      && (next != null ==> next.contents == contents[1..] && next.Valid())
    }

    /**
     * `notifications_insert`: a new node holding copies of `name` and `origin`
     * whose successor is the previous head, so the store gains the pair at the
     * front and the earlier pairs follow unchanged, repeats included.
     */
    constructor (name: string, origin: string, next: Notification?)
      requires next != null ==> next.Valid()
      ensures Valid() && this.next == next
      ensures contents == [PkgId(name, origin)] + Contents(next)
    {
      this.name := name;
      this.origin := origin;
      this.next := next;
      contents := [PkgId(name, origin)] + Contents(next);
    }
  }

  /** The pairs held by the list starting at `head`; the NULL list holds none. */
  ghost function Contents(head: Notification?): seq<PkgId>
  {
    if head == null then [] else head.contents
  }
}
