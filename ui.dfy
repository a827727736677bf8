/**
 * The document the conversation is rendered into (pkg/ui/model.go): an
 * append-only sequence of blocks, replaced by a new sequence on every
 * append, and a list of subscriptions that are told about every change.
 * Subscriptions are closed by forgetting their subscriber; closed ones are
 * pruned the next time a subscription is added.
 *
 * The mutex is left out: every operation is modelled as one sequential
 * step. What a subscriber does when it is told about a change is not part
 * of this model; the document records each call it makes in `delivered`.
 */
module Ui {

  /** Something that wants to hear about changes; only its identity matters here. */
  class Subscriber {}

  /** A block of the document; `doc` is the document it was last attached to. */
  class Block {
    var doc: Document?

    constructor ()
      ensures doc == null
    {
      doc := null;
    }
  }

  /** One DocumentChanged call: which subscriber was told about which block. */
  datatype Notice = Notice(subscriber: Subscriber, block: Block)

  class Subscription {
    const doc: Document
    const id: nat
    var subscriber: Subscriber?

    constructor (doc: Document, id: nat, subscriber: Subscriber?)
      ensures this.doc == doc && this.id == id && this.subscriber == subscriber
    {
      this.doc := doc;
      this.id := id;
      this.subscriber := subscriber;
    }

    /** subscription.Close: forget the subscriber; nothing else changes. */
    method Close()
      modifies this
      ensures subscriber == null
    {
      subscriber := null;
    }
  }

  /** A subscription that is neither nil nor closed. */
  predicate IsLive(s: Subscription?)
    reads s
  {
    s != null && s.subscriber != null
  }

  /** The live subscriptions of `subs`, in their order. */
  function Live(subs: seq<Subscription?>): (r: seq<Subscription>)
    reads set i | 0 <= i < |subs| :: subs[i]
    ensures |r| <= |subs|
    ensures forall k :: 0 <= k < |r| ==> r[k] in subs && r[k].subscriber != null
    ensures forall k :: 0 <= k < |subs| && IsLive(subs[k]) ==> subs[k] in r
  {
    if subs == [] then []
    else
      var last := subs[|subs| - 1];
      Live(subs[..|subs| - 1]) + (if IsLive(last) then [last] else [])
  }

  /** The calls a fan-out over `subs` makes for block `b`: one per live subscription, in order. */
  function Notices(subs: seq<Subscription?>, b: Block): seq<Notice>
    reads set i | 0 <= i < |subs| :: subs[i]
  {
    if subs == [] then []
    else
      var last := subs[|subs| - 1];
      Notices(subs[..|subs| - 1], b) + (if IsLive(last) then [Notice(last.subscriber, b)] else [])
  }

  /** Pruning works entry by entry: the survivors of a list are those of its front followed by those of its back. */
  lemma {:induction false} LiveAppend(front: seq<Subscription?>, back: seq<Subscription?>)
    ensures Live(front + back) == Live(front) + Live(back)
    decreases |back|
  {
    if back == [] {
      assert front + back == front;
    } else {
      var init := back[..|back| - 1];
      assert (front + back)[..|front + back| - 1] == front + init;
      LiveAppend(front, init);
    }
  }

  /** A fan-out tells every live subscription, once each, in list order, and no one else. */
  lemma {:induction false} NoticesFollowLive(subs: seq<Subscription?>, b: Block)
    ensures |Notices(subs, b)| == |Live(subs)|
    ensures forall k :: 0 <= k < |Live(subs)| ==> Notices(subs, b)[k] == Notice(Live(subs)[k].subscriber, b)
  {
    if subs != [] {
      NoticesFollowLive(subs[..|subs| - 1], b);
    }
  }

  /** The first position of `b` in `s`, or -1 if it is not there. */
  function FirstIndex(s: seq<Block>, b: Block): (r: int)
    ensures -1 <= r < |s|
    ensures r == -1 <==> b !in s
    ensures r != -1 ==> s[r] == b && forall j :: 0 <= j < r ==> s[j] != b
  {
    if s == [] then -1
    else if s[0] == b then 0
    else
      var r := FirstIndex(s[1..], b);
      if r == -1 then -1 else r + 1
  }

  /** A block appended to a sequence that did not hold it is found last. */
  lemma AppendedBlockIsLast(s: seq<Block>, b: Block)
    requires b !in s
    ensures FirstIndex(s + [b], b) == |s|
  {
    assert (s + [b])[|s|] == b;
  }

  class Document {
    var subscriptions: seq<Subscription?>
    var nextID: nat
    var blocks: seq<Block>
    /** The DocumentChanged calls made so far, in order. */
    var delivered: seq<Notice>

    /** Ids start at 1, every subscription belongs here, and ids grow along the list and stay below nextID. */
    ghost predicate Valid()
      reads this
    {
      && 1 <= nextID
      && Owned(subscriptions, this, nextID)
      && IdsIncrease(subscriptions)
    }

    /** NewDocument: no blocks, no subscriptions, and the first id is 1. */
    constructor ()
      ensures Valid()
      ensures nextID == 1 && subscriptions == [] && blocks == [] && delivered == []
    {
      subscriptions := [];
      nextID := 1;
      blocks := [];
      delivered := [];
    }

    /**
     * Blocks: the current sequence. AddBlock installs a new sequence rather
     * than changing this one, so a result stays a prefix of later ones.
     */
    function Blocks(): (r: seq<Block>)
      reads this
      ensures r == blocks
    {
      blocks
    }

    /** NumBlocks: how many blocks there are. */
    function NumBlocks(): (n: int)
      reads this
      ensures n == |blocks| && n >= 0
    {
      |Blocks()|
    }

    /** IndexOf: the first index holding `find`, or -1. */
    method IndexOf(find: Block) returns (r: int)
      ensures r == FirstIndex(blocks, find)
      ensures r == -1 <==> find !in blocks
      ensures r != -1 ==> 0 <= r < |blocks| && blocks[r] == find && forall j :: 0 <= j < r ==> blocks[j] != find
    {
      var bs := Blocks();
      for i := 0 to |bs|
        invariant forall j :: 0 <= j < i ==> bs[j] != find
      {
        if bs[i] == find {
          return i;
        }
      }
      return -1;
    }

    /**
     * AddSubscription: the new subscription takes the next id; the list
     * keeps its live entries in order and gets the new one last.
     */
    method AddSubscription(subscriber: Subscriber?) returns (s: Subscription)
      requires Valid()
      modifies this
      ensures Valid() && fresh(s)
      ensures s.doc == this && s.id == old(nextID) && s.subscriber == subscriber
      ensures nextID == old(nextID) + 1
      ensures subscriptions == old(Live(subscriptions)) + [s]
      ensures blocks == old(blocks) && delivered == old(delivered)
    {
      var kept := Prune(subscriptions);
      LiveStaysOrdered(subscriptions, this, nextID);
      var id := nextID;
      nextID := nextID + 1;
      s := new Subscription(this, id, subscriber);
      AddLargest(kept, s);
      subscriptions := kept + [s];
    }

    /** sendDocumentChanged: tell every live subscription, in list order, about `b`. */
    method SendDocumentChanged(b: Block)
      requires Valid()
      modifies this
      ensures Valid()
      ensures delivered == old(delivered) + old(Notices(subscriptions, b))
      ensures subscriptions == old(subscriptions) && nextID == old(nextID) && blocks == old(blocks)
    {
      var snapshot := subscriptions;
      for i := 0 to |snapshot|
        invariant delivered == old(delivered) + Notices(snapshot[..i], b)
        invariant subscriptions == old(subscriptions) && nextID == old(nextID) && blocks == old(blocks)
      {
        assert snapshot[..i + 1][..i] == snapshot[..i];
        var s := snapshot[i];
        if s == null || s.subscriber == null {
          continue;
        }
        delivered := delivered + [Notice(s.subscriber, b)];
      }
      assert snapshot[..|snapshot|] == snapshot;
    }

    /**
     * AddBlock: install a new sequence, the old one plus `block`, attach
     * the block here, and fan out exactly once.
     */
    method AddBlock(block: Block)
      requires Valid()
      modifies this, block
      ensures Valid()
      ensures blocks == old(blocks) + [block]
      ensures block.doc == this
      ensures delivered == old(delivered) + old(Notices(subscriptions, block))
      ensures subscriptions == old(subscriptions) && nextID == old(nextID)
    {
      var newBlocks := blocks + [block];
      blocks := newBlocks;
      block.doc := this;
      SendDocumentChanged(block);
    }
  }

  /** The pruning loop of AddSubscription: keep the live entries, in order. */
  method Prune(subs: seq<Subscription?>) returns (kept: seq<Subscription?>)
    ensures kept == Live(subs)
  {
    kept := [];
    for i := 0 to |subs|
      invariant kept == Live(subs[..i])
    {
      assert subs[..i + 1][..i] == subs[..i];
      var t := subs[i];
      if t == null || t.subscriber == null {
        continue;
      }
      kept := kept + [t];
    }
    assert subs[..|subs|] == subs;
  }

  /** Pruning keeps a list owned by `doc` and ordered by id. */
  lemma LiveStaysOrdered(subs: seq<Subscription?>, doc: Document, bound: nat)
    requires IdsIncrease(subs) && Owned(subs, doc, bound)
    ensures IdsIncrease(Live(subs)) && Owned(Live(subs), doc, bound)
  {
    var live := Live(subs);
    forall i | 0 <= i < |live|
      ensures live[i].doc == doc && live[i].id < bound
    {
      assert live[i] in subs;
    }
    forall i, j | 0 <= i < j < |live|
      ensures live[i].id < live[j].id
    {
      LiveKeepsIdOrder(subs, i, j);
    }
  }

  /** A subscription whose id is above every id of an ordered list can go last. */
  lemma AddLargest(subs: seq<Subscription?>, s: Subscription)
    requires IdsIncrease(subs) && Owned(subs, s.doc, s.id)
    ensures IdsIncrease(subs + [s]) && Owned(subs + [s], s.doc, s.id + 1)
  {
  }

  /** Every entry is a subscription of `doc` with an id below `bound`. */
  predicate Owned(subs: seq<Subscription?>, doc: Document, bound: nat)
  {
    forall i :: 0 <= i < |subs| ==> subs[i] != null && subs[i].doc == doc && subs[i].id < bound
  }

  /** Ids grow along the list (nil entries aside). */
  predicate IdsIncrease(subs: seq<Subscription?>)
  {
    forall i, j :: 0 <= i < j < |subs| && subs[i] != null && subs[j] != null ==> subs[i].id < subs[j].id
  }

  /** Pruning keeps the survivors in their order, so ids still grow along the list. */
  lemma {:induction false} LiveKeepsIdOrder(subs: seq<Subscription?>, i: int, j: int)
    requires IdsIncrease(subs)
    requires 0 <= i < j < |Live(subs)|
    ensures Live(subs)[i].id < Live(subs)[j].id
    decreases |subs|
  {
    var init := subs[..|subs| - 1];
    var front := Live(init);
    assert IdsIncrease(init) by {
      forall a, b | 0 <= a < b < |init| && init[a] != null && init[b] != null
        ensures init[a].id < init[b].id
      {
        assert init[a] == subs[a] && init[b] == subs[b];
      }
    }
    if j < |front| {
      LiveKeepsIdOrder(init, i, j);
    } else {
      var x := front[i];
      assert x in init;
      var a :| 0 <= a < |init| && init[a] == x;
      assert subs[a] == x;
    }
  }

  /** blockChanged: nothing on a nil document; otherwise one fan-out, and the blocks stay as they are. */
  method BlockChanged(d: Document?, block: Block)
    requires d != null ==> d.Valid()
    modifies d
    ensures d != null ==> d.Valid()
    ensures d != null ==> d.delivered == old(d.delivered) + old(Notices(d.subscriptions, block))
    ensures d != null ==> d.blocks == old(d.blocks) && d.subscriptions == old(d.subscriptions) && d.nextID == old(d.nextID)
  {
    if d == null {
      return;
    }
    d.SendDocumentChanged(block);
  }
}
