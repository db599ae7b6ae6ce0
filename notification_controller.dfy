/**
  The notification controller: a registry from notification keys to
  listeners, owned by one observer. The controller subscribes once to its
  notification center (for every notification) and does its own filtering
  with the keys' delivery match. When the observer is deallocated the
  controller unsubscribes, drops every listener and handles no further
  notification.
 */
module NotificationController {
  import opened Identity
  import opened NotificationKey

  /** What runs when a listener fires: a registered block, or a selector performed on the observer. */
  datatype Handler = Block(block: BlockId) | Perform(selector: SelectorId, target: ObjId)

  /** A listener record: the queue its handler is handed to (nil: run on the posting thread) and the handler. */
  datatype Listener = Listener(queue: Option<QueueId>, handler: Handler)

  type Registry = map<Key, Listener>

  /** The entries of the registry that an incoming notification fires, each once. */
  function Selected(entries: Registry, eventName: string, eventSender: Option<ObjId>): (fired: Registry)
    ensures fired.Keys == entries.Keys * DeliveryKeys(eventName, eventSender)
    ensures forall k :: k in fired ==> fired[k] == entries[k]
  {
    map k | k in entries && k.MatchesForSending(eventName, eventSender) :: entries[k]
  }

  /** A listener stored under a nil name fires for a notification of any name when its sender condition holds. */
  lemma NilNameSelectedForAnyName(entries: Registry, k: Key, eventName: string, eventSender: Option<ObjId>)
    requires k in entries && k.name == None && Accepts(k.sender, eventSender)
    ensures k in Selected(entries, eventName, eventSender)
    ensures Selected(entries, eventName, eventSender)[k] == entries[k]
  {
  }

  /** A listener stored under a nil sender fires for a notification from any sender when its name condition holds. */
  lemma NilSenderSelectedForAnySender(entries: Registry, k: Key, eventName: string, eventSender: Option<ObjId>)
    requires k in entries && k.sender == None && Accepts(k.name, Some(eventName))
    ensures k in Selected(entries, eventName, eventSender)
    ensures Selected(entries, eventName, eventSender)[k] == entries[k]
  {
  }

  /** Only registered listeners whose key delivery-matches the notification fire, each with its own record. */
  lemma SelectedExactly(entries: Registry, eventName: string, eventSender: Option<ObjId>)
    ensures Selected(entries, eventName, eventSender).Keys <= entries.Keys
    ensures forall k :: k in Selected(entries, eventName, eventSender) <==>
                        k in entries && k.MatchesForSending(eventName, eventSender)
    ensures forall k :: k in Selected(entries, eventName, eventSender) ==>
                        Selected(entries, eventName, eventSender)[k] == entries[k]
  {
  }

  /** Fan-out: two distinct registered keys that both match one notification both fire. */
  lemma FanOut(entries: Registry, k1: Key, k2: Key, eventName: string, eventSender: Option<ObjId>)
    requires k1 in entries && k2 in entries && k1 != k2
    requires k1.MatchesForSending(eventName, eventSender) && k2.MatchesForSending(eventName, eventSender)
    ensures k1 in Selected(entries, eventName, eventSender) && k2 in Selected(entries, eventName, eventSender)
    ensures |Selected(entries, eventName, eventSender)| >= 2
  {
    var fired := Selected(entries, eventName, eventSender);
    assert {k1, k2} <= fired.Keys;
    assert |{k1, k2}| == 2;
    SubsetCardinality({k1, k2}, fired.Keys);
  }

  /**
    However many listeners are registered, one notification fires at most
    four of them: those stored under its own pair and under the pairs with
    its name, its sender or both replaced by nil.
   */
  lemma AtMostFourFire(entries: Registry, eventName: string, eventSender: Option<ObjId>)
    ensures |Selected(entries, eventName, eventSender)| <= 4
  {
    var fired := Selected(entries, eventName, eventSender);
    SubsetCardinality(fired.Keys, DeliveryKeys(eventName, eventSender));
  }

  lemma {:induction false} SubsetCardinality(small: set<Key>, large: set<Key>)
    requires small <= large
    ensures |small| <= |large|
  {
    if small != {} {
      var x :| x in small;
      SubsetCardinality(small - {x}, large - {x});
    }
  }

  class Controller {
    /** The observer this controller serves; selector-form listeners are performed on it. */
    const observer: ObjId
    /** The notification center the controller subscribes to. */
    const center: CenterId
    /** The registry: at most one listener per key. */
    var listeners: Registry
    /** Whether the controller is subscribed to the notification center. */
    var subscribed: bool
    /** Whether the observer still exists. */
    var alive: bool

    /** A controller with registered listeners is subscribed. */
    ghost predicate Valid()
      reads this
    {
      listeners != map[] ==> subscribed
    }

    /** `initWithObserver:notificationCenter:`: empty registry, not yet subscribed. */
    constructor (observer: ObjId, center: CenterId)
      ensures Valid()
      ensures this.observer == observer && this.center == center
      ensures listeners == map[] && !subscribed && alive
    {
      this.observer := observer;
      this.center := center;
      listeners := map[];
      subscribed := false;
      alive := true;
    }

    /**
      The registry insert both public add forms share. A pair that is already
      registered is rejected and nothing changes; otherwise the listener is
      stored under the pair and the controller subscribes if it was not.
     */
    method Register(name: Option<string>, sender: Option<ObjId>, listener: Listener) returns (ok: bool)
      requires Valid()
      modifies this
      ensures Valid()
      ensures ok <==> NewKey(name, sender) !in old(listeners)
      ensures listeners == if ok then old(listeners)[NewKey(name, sender) := listener] else old(listeners)
      ensures subscribed == (old(subscribed) || ok)
      ensures alive == old(alive)
    {
      var key := NewKey(name, sender);
      if key in listeners {
        return false;
      }
      listeners := listeners[key := listener];
      subscribed := true;
      ok := true;
    }

    /** `addObserverForName:sender:queue:usingBlock:`. */
    method AddObserverUsingBlock(name: Option<string>, sender: Option<ObjId>, queue: Option<QueueId>, block: BlockId)
      returns (ok: bool)
      requires Valid()
      modifies this
      ensures Valid()
      ensures ok <==> NewKey(name, sender) !in old(listeners)
      ensures listeners == if ok then old(listeners)[NewKey(name, sender) := Listener(queue, Block(block))]
                           else old(listeners)
      ensures subscribed == (old(subscribed) || ok)
      ensures alive == old(alive)
    {
      ok := Register(name, sender, Listener(queue, Block(block)));
    }

    /**
      `addObserverForName:sender:selector:`: the selector is performed on the
      observer. The listener is stored without a queue (see the README).
     */
    method AddObserverWithSelector(name: Option<string>, sender: Option<ObjId>, selector: SelectorId)
      returns (ok: bool)
      requires Valid()
      modifies this
      ensures Valid()
      ensures ok <==> NewKey(name, sender) !in old(listeners)
      ensures listeners == if ok then old(listeners)[NewKey(name, sender) := Listener(None, Perform(selector, observer))]
                           else old(listeners)
      ensures subscribed == (old(subscribed) || ok)
      ensures alive == old(alive)
    {
      ok := Register(name, sender, Listener(None, Perform(selector, observer)));
    }

    /**
      `removeObserverForName:sender:`: searches the registry with the removal
      match and deletes the entry it finds; reports whether there was one.
     */
    method RemoveObserver(name: Option<string>, sender: Option<ObjId>) returns (removed: bool)
      requires Valid()
      modifies this
      ensures Valid()
      ensures removed <==> NewKey(name, sender) in old(listeners)
      ensures listeners == old(listeners) - {NewKey(name, sender)}
      ensures subscribed == old(subscribed) && alive == old(alive)
    {
      var pending := listeners.Keys;
      while pending != {}
        invariant pending <= listeners.Keys
        invariant forall k :: k in listeners && k !in pending ==> !k.MatchesForRemoving(name, sender)
        invariant listeners == old(listeners) && subscribed == old(subscribed) && alive == old(alive)
        decreases pending
      {
        var k :| k in pending;
        if k.MatchesForRemoving(name, sender) {
          listeners := listeners - {k};
          return true;
        }
        pending := pending - {k};
      }
      removed := false;
    }

    /**
      The handler for one incoming notification: every registered listener
      whose key delivery-matches the notification fires, and none fires once
      the observer is gone. A controller that is not subscribed fires nothing.
     */
    method Dispatch(eventName: string, eventSender: Option<ObjId>) returns (fired: Registry)
      requires Valid()
      ensures fired == if alive then Selected(listeners, eventName, eventSender) else map[]
      ensures !subscribed ==> fired == map[]
    {
      fired := map[];
      if !alive {
        return;
      }
      var pending := listeners.Keys;
      while pending != {}
        invariant pending <= listeners.Keys
        invariant forall k :: k in fired <==> k in listeners && k !in pending && k.MatchesForSending(eventName, eventSender)
        invariant forall k :: k in fired ==> fired[k] == listeners[k]
        decreases pending
      {
        var k :| k in pending;
        if k.MatchesForSending(eventName, eventSender) {
          fired := fired[k := listeners[k]];
        }
        pending := pending - {k};
      }
    }

    /**
      The observer has been deallocated: the controller unsubscribes and
      releases every listener, and from now on handles no notification.
     */
    method ObserverDeallocated()
      requires Valid()
      modifies this
      ensures Valid()
      ensures !alive && !subscribed && listeners == map[]
    {
      subscribed := false;
      listeners := map[];
      alive := false;
    }
  }

  /** The block form and the selector form share one registry: the second registration of a pair is refused. */
  method BlockThenSelector(observer: ObjId, center: CenterId, name: Option<string>, sender: Option<ObjId>,
                           block: BlockId, selector: SelectorId)
    returns (first: bool, second: bool, entries: Registry)
    ensures first && !second
    ensures entries == map[NewKey(name, sender) := Listener(None, Block(block))]
  {
    var c := new Controller(observer, center);
    first := c.AddObserverUsingBlock(name, sender, None, block);
    second := c.AddObserverWithSelector(name, sender, selector);
    entries := c.listeners;
  }

  /** After a pair is removed it can be registered again. */
  method RemoveThenAdd(observer: ObjId, center: CenterId, name: Option<string>, sender: Option<ObjId>,
                       block: BlockId, selector: SelectorId)
    returns (added: bool, removed: bool, removedAgain: bool, readded: bool)
    ensures added && removed && !removedAgain && readded
  {
    var c := new Controller(observer, center);
    added := c.AddObserverUsingBlock(name, sender, None, block);
    removed := c.RemoveObserver(name, sender);
    removedAgain := c.RemoveObserver(name, sender);
    readded := c.AddObserverWithSelector(name, sender, selector);
  }

  /** A listener stored with a nil sender is not removed by naming a concrete sender; it keeps firing. */
  method RemoveWithConcreteSenderKeepsWildcard(observer: ObjId, center: CenterId, name: string, s: ObjId,
                                               block: BlockId)
    returns (removed: bool, fired: Registry)
    ensures !removed
    ensures fired == map[Key(Some(name), None) := Listener(None, Block(block))]
  {
    var c := new Controller(observer, center);
    var added := c.AddObserverUsingBlock(Some(name), None, None, block);
    removed := c.RemoveObserver(Some(name), Some(s));
    fired := c.Dispatch(name, Some(s));
    assert fired.Keys == {Key(Some(name), None)};
  }

  /** Two listeners with nil names and different senders: a notification fires only the one for its sender. */
  method SenderSelectsListener(observer: ObjId, center: CenterId, s1: ObjId, s2: ObjId,
                               block1: BlockId, block2: BlockId, eventName: string)
    returns (fired: Registry)
    requires s1 != s2
    ensures fired == map[Key(None, Some(s1)) := Listener(None, Block(block1))]
  {
    var c := new Controller(observer, center);
    var ok1 := c.AddObserverUsingBlock(None, Some(s1), None, block1);
    var ok2 := c.AddObserverUsingBlock(None, Some(s2), None, block2);
    fired := c.Dispatch(eventName, Some(s1));
    assert fired.Keys == {Key(None, Some(s1))};
  }

  /** Once the observer is deallocated, a notification that used to match fires nothing. */
  method NothingFiresAfterDeallocation(observer: ObjId, center: CenterId, name: Option<string>,
                                       sender: Option<ObjId>, block: BlockId, eventName: string,
                                       eventSender: Option<ObjId>)
    returns (before: Registry, after: Registry)
    requires NewKey(name, sender).MatchesForSending(eventName, eventSender)
    ensures |before| == 1 && after == map[]
  {
    var c := new Controller(observer, center);
    var ok := c.AddObserverUsingBlock(name, sender, None, block);
    before := c.Dispatch(eventName, eventSender);
    assert before.Keys == {NewKey(name, sender)};
    c.ObserverDeallocated();
    after := c.Dispatch(eventName, eventSender);
  }
}
