/**
  The notification key: a `(name?, sender?)` pair under which a listener is
  stored. It answers two different questions:
  - delivery: does an incoming notification reach the listener stored under
    this key? A nil name or a nil sender is a wildcard here.
  - removal: is this the key a caller names when unregistering? Here nil is
    not a wildcard; the pair must be exactly the stored one.
 */
module NotificationKey {
  import opened Identity

  /** A stored component accepts an incoming one when it is nil (wildcard) or equal to it. */
  predicate Accepts<T(==)>(stored: Option<T>, incoming: Option<T>)
  {
    stored.None? || stored == incoming
  }

  /** Removal-time comparison of one component: nil matches only nil, a value only the same value. */
  function SameComponent<T(==)>(stored: Option<T>, given: Option<T>): (r: bool)
    ensures r <==> stored == given
  {
    match (stored, given)
    case (None, None) => true
    case (Some(a), Some(b)) => a == b
    case _ => false
  }

  datatype Key = Key(name: Option<string>, sender: Option<ObjId>) {

    /**
      Delivery match against a notification; its name is never nil, its sender may be.
      Nil components of the key are wildcards.
     */
    function MatchesForSending(eventName: string, eventSender: Option<ObjId>): (r: bool)
      ensures r <==> this in DeliveryKeys(eventName, eventSender)
    {
      Accepts(name, Some(eventName)) && Accepts(sender, eventSender)
    }

    /** Removal match: the given pair must be exactly the stored pair, nil included. */
    function MatchesForRemoving(givenName: Option<string>, givenSender: Option<ObjId>): (r: bool)
      ensures r <==> this == Key(givenName, givenSender)
    {
      SameComponent(name, givenName) && SameComponent(sender, givenSender)
    }

    /** `NSCopying`: a copy is an equal key. */
    function Copy(): (c: Key)
      ensures c == this
      ensures c.MatchesForRemoving(name, sender)
    {
      Key(name, sender)
    }
  }

  /**
    The keys a notification is delivered to: its own pair, and the pairs
    obtained by replacing its name, its sender or both with nil.
   */
  function DeliveryKeys(eventName: string, eventSender: Option<ObjId>): (keys: set<Key>)
    ensures |keys| <= 4
  {
    var keys := {Key(Some(eventName), eventSender), Key(None, eventSender),
                 Key(Some(eventName), None), Key(None, None)};
    assert keys == {Key(Some(eventName), eventSender)} + {Key(None, eventSender)}
                   + {Key(Some(eventName), None)} + {Key(None, None)};
    keys
  }

  /** `initWithNotificationName:sender:`; the read-only properties give back what was passed. */
  function NewKey(name: Option<string>, sender: Option<ObjId>): (k: Key)
    ensures k.name == name && k.sender == sender
    ensures k.MatchesForRemoving(name, sender)
    ensures forall other: Key :: other.MatchesForRemoving(name, sender) ==> other == k
  {
    Key(name, sender)
  }

  /**
    Delivery match spelled out: the stored name is nil or equals the event
    name, and the stored sender is nil or is the very event sender.
   */
  lemma SendingMatchIff(k: Key, eventName: string, eventSender: Option<ObjId>)
    ensures k.MatchesForSending(eventName, eventSender) <==>
            (k.name == None || k.name == Some(eventName)) &&
            (k.sender == None || k.sender == eventSender)
  {
  }

  /** A nil name accepts every notification name; only the sender condition is left. */
  lemma NilNameMatchesAnyName(k: Key, eventName: string, eventSender: Option<ObjId>)
    requires k.name == None
    ensures k.MatchesForSending(eventName, eventSender) <==> Accepts(k.sender, eventSender)
  {
  }

  /** A nil sender accepts every sender, including a nil one; only the name condition is left. */
  lemma NilSenderMatchesAnySender(k: Key, eventName: string, eventSender: Option<ObjId>)
    requires k.sender == None
    ensures k.MatchesForSending(eventName, eventSender) <==> Accepts(k.name, Some(eventName))
  {
  }

  /** Removal matching is reflexive: a key matches its own name and sender. */
  lemma RemovalReflexive(k: Key)
    ensures k.MatchesForRemoving(k.name, k.sender)
  {
  }

  /** Removal never treats nil as a wildcard: a nil argument matches only a stored nil. */
  lemma RemovalNilIsNotWildcard(k: Key, givenName: Option<string>, givenSender: Option<ObjId>)
    ensures givenName == None && k.name != None ==> !k.MatchesForRemoving(givenName, givenSender)
    ensures givenSender == None && k.sender != None ==> !k.MatchesForRemoving(givenName, givenSender)
    ensures k.name == None && givenName != None ==> !k.MatchesForRemoving(givenName, givenSender)
    ensures k.sender == None && givenSender != None ==> !k.MatchesForRemoving(givenName, givenSender)
  {
  }

  /** Removal matching is stricter than delivery: the exact pair is always delivered to. */
  lemma RemovalImpliesSending(k: Key, eventName: string, eventSender: Option<ObjId>)
    requires k.MatchesForRemoving(Some(eventName), eventSender)
    ensures k.MatchesForSending(eventName, eventSender)
  {
  }

  /**
    The converse fails: a key with a nil sender is delivered a notification
    from a concrete sender, but is not removed by naming that sender.
   */
  lemma SendingDoesNotImplyRemoval(eventName: string, s: ObjId)
    ensures Key(Some(eventName), None).MatchesForSending(eventName, Some(s))
    ensures !Key(Some(eventName), None).MatchesForRemoving(Some(eventName), Some(s))
  {
  }

  /** A copy matches exactly the notifications and removals the original matches. */
  lemma CopyMatchesSame(k: Key, eventName: string, eventSender: Option<ObjId>,
                        givenName: Option<string>, givenSender: Option<ObjId>)
    ensures k.Copy().MatchesForSending(eventName, eventSender) == k.MatchesForSending(eventName, eventSender)
    ensures k.Copy().MatchesForRemoving(givenName, givenSender) == k.MatchesForRemoving(givenName, givenSender)
  {
  }
}
