# MCSNotificationController — a verified model of the observer registry

MCSNotificationController wraps `NSNotificationCenter`. An observer owns a controller. Through it, the observer registers a block or a selector for a `(notification name, sender)` pair. Either part may be nil, which means "any". The controller:

- refuses a second registration of the same pair;
- removes a registration only when given the exact pair;
- subscribes once to its notification center and fires every registered listener whose key matches an incoming notification;
- stops handling notifications once its observer is deallocated.

This project models that registry in Dafny:

- `identity.dfy` — module `Identity`. It holds `Option` (the nullable reference) and opaque identities for objects, notification centers, operation queues, blocks and selectors. Senders are compared by identity, so each identity is just an address.
- `notification_key.dfy` — module `NotificationKey`. It models `MCSNotificationKey` as a value type `Key(name, sender)` with two predicates:
  - the delivery match, where nil is a wildcard;
  - the removal match, where nil matches only nil.
  
  It also has the constructor function, `NSCopying`, and lemmas that relate the two matches.
- `notification_controller.dfy` — module `NotificationController`. It models `MCSNotificationController` as a class `Controller`. The class has a `listeners: map<Key, Listener>` field, a `subscribed` flag and an `alive` flag (whether the observer still exists). Its methods are:
  - the two add forms, which share one registry insert;
  - removal, which searches the registry with the removal match;
  - the notification handler `Dispatch`, which returns the entries that fire;
  - the deallocation transition.
  
  `Selected` is the specification of which entries fire. Lemmas about it state the wildcard and fan-out properties. Short client methods run the controller through the documented scenarios: register twice, remove and then re-add, remove with a concrete sender, sender filtering, and deallocation.

## Model

| member | source | states |
|---|---|---|
| `NotificationKey.NewKey` | MCSNotificationController/Private/MCSNotificationKey.h:16-19 | a key built from `(name, sender)` exposes exactly that name and sender, and is the only key that removal-matches that pair |
| `NotificationKey.Key.MatchesForSending` | MCSNotificationController/Private/MCSNotificationKey.h:21 | a key is delivered a notification `(name, sender)` (name never nil) iff it is one of the four keys `(name, sender)`, `(nil, sender)`, `(name, nil)`, `(nil, nil)` |
| `NotificationKey.Key.MatchesForRemoving` | MCSNotificationController/Private/MCSNotificationKey.h:22 | the removal match holds exactly when the given nullable pair is the stored pair |
| `NotificationKey.SameComponent` | MCSNotificationController/Private/MCSNotificationKey.h:22 | comparing one component at removal time (nil only with nil, a value only with the same value) is plain equality of nullable values |
| `NotificationKey.Key.Copy` | MCSNotificationController/Private/MCSNotificationKey.h:14 | a copy of a key equals the original and removal-matches the original's pair |
| `NotificationKey.SendingMatchIff` | MCSNotificationController/Private/MCSNotificationKey.h:21 | the delivery match holds iff (the stored name is nil or equals the event name) and (the stored sender is nil or is the event sender); the event name is never nil |
| `NotificationKey.NilNameMatchesAnyName` | MCSNotificationController/Private/MCSNotificationKey.h:21 | a key with a nil name matches a notification of any name exactly when its sender condition holds |
| `NotificationKey.NilSenderMatchesAnySender` | MCSNotificationController/Private/MCSNotificationKey.h:21 | a key with a nil sender matches a notification from any sender exactly when its name condition holds |
| `NotificationKey.RemovalReflexive` | MCSNotificationController/Private/MCSNotificationKey.h:16-22 | a key removal-matches its own name and sender |
| `NotificationKey.RemovalNilIsNotWildcard` | MCSNotificationController/Private/MCSNotificationKey.h:22 | in the removal match a nil argument never matches a stored value, and a stored nil never matches a given value |
| `NotificationKey.RemovalImpliesSending` | MCSNotificationController/Private/MCSNotificationKey.h:21-22 | a key that removal-matches a concrete name and a sender also delivery-matches that notification |
| `NotificationKey.SendingDoesNotImplyRemoval` | MCSNotificationController/Private/MCSNotificationKey.h:21-22 | a key with a nil sender is delivered a notification from a concrete sender but is not removal-matched by naming that sender |
| `NotificationKey.CopyMatchesSame` | MCSNotificationController/Private/MCSNotificationKey.h:14 | a copy agrees with the original on every delivery match and every removal match |
| `NotificationController.Selected` | MCSNotificationController/MCSNotificationController.h:56-59 | the listeners a notification fires are the registered entries whose key is one of the notification's four delivery keys, each with its stored record |
| `NotificationController.AtMostFourFire` | MCSNotificationController/MCSNotificationController.h:56-59 | however many listeners are registered, one notification fires at most four of them |
| `NotificationController.NilNameSelectedForAnyName` | MCSNotificationController/MCSNotificationController.h:58 | a listener registered with a nil name fires, with its own record, for a notification of any name whose sender it accepts |
| `NotificationController.NilSenderSelectedForAnySender` | MCSNotificationController/MCSNotificationController.h:59 | a listener registered with a nil sender fires, with its own record, for a notification from any sender when its name is accepted |
| `NotificationController.SelectedExactly` | MCSNotificationController/MCSNotificationController.h:56-59 | the listeners a notification fires are exactly the registered ones whose key delivery-matches it, each with its stored record |
| `NotificationController.FanOut` | MCSNotificationController/MCSNotificationController.h:56-59 | two different registered keys that both match one notification both fire, so at least two listeners fire |
| `NotificationController.Controller.constructor` | MCSNotificationController/MCSNotificationController.h:44-53 | a new controller keeps its observer and notification center, has no listeners, is not subscribed and its observer is alive |
| `NotificationController.Controller.Register` | MCSNotificationController/MCSNotificationController.h:63 | the shared insert: it succeeds iff the pair is not registered; on success the pair maps to the new listener, nothing else changes and the controller is subscribed; on failure nothing changes |
| `NotificationController.Controller.AddObserverUsingBlock` | MCSNotificationController/MCSNotificationController.h:55-68 | the block form: it returns NO and leaves the registry as it was for a pair already registered; otherwise it returns YES and stores exactly one listener (the block with its queue) for the pair |
| `NotificationController.Controller.AddObserverWithSelector` | MCSNotificationController/MCSNotificationController.h:70-81 | the selector form: the same insert, storing a listener that performs the selector on the observer |
| `NotificationController.Controller.RemoveObserver` | MCSNotificationController/MCSNotificationController.h:83-91 | it returns YES iff the exact pair was registered, and deletes only that entry; otherwise it returns NO and changes nothing |
| `NotificationController.Controller.Dispatch` | MCSNotificationController/MCSNotificationController.h:56-59 | while the observer lives, an incoming notification fires exactly the registered listeners whose key delivery-matches it; after deallocation it fires none, and a controller that is not subscribed fires none |
| `NotificationController.Controller.ObserverDeallocated` | MCSNotificationController/MCSNotificationController.h:35-38 | when the observer goes away, the controller unsubscribes, holds no listener and is marked dead |
| `NotificationController.BlockThenSelector` | MCSNotificationController/MCSNotificationController.h:63-77 | registering a pair with the block form and then with the selector form gives YES then NO, and only the block listener stays registered |
| `NotificationController.RemoveThenAdd` | MCSNotificationController/MCSNotificationController.h:83-91 | add, remove, remove and add of one pair return YES, YES, NO and YES |
| `NotificationController.RemoveWithConcreteSenderKeepsWildcard` | MCSNotificationController/MCSNotificationController.h:86-91 | removing `(name, s)` when `(name, nil)` is registered returns NO, and the wildcard listener still fires for a notification from `s` |
| `NotificationController.SenderSelectsListener` | MCSNotificationController/MCSNotificationController.h:59 | with listeners for `(nil, s1)` and `(nil, s2)` registered, a notification from `s1` fires only the first |
| `NotificationController.NothingFiresAfterDeallocation` | MCSNotificationController/MCSNotificationController.h:36-38 | a notification that fires one listener fires none after the observer is deallocated |

## Left out

- The notification center itself. Subscribing to and unsubscribing from `NSNotificationCenter` is a foreign pub/sub facility. The model records it only as the `subscribed` flag, and the center only as an identity.
- Running a listener. Handing the block to an `NSOperationQueue`, or running it on the posting thread (`MCSNotificationListener`), is not modelled. `Dispatch` returns the records to fire; each record holds its queue and its handler.
- The selector arity check. Checking at run time that the selector takes exactly one argument is Objective-C runtime behaviour. A selector is an opaque name, and the selector form is the same registry insert as the block form.
- Weak references. ARC zeroing of the weak `sender` in a key and of the weak `observer` is not modelled. A sender is a fixed identity. The observer's death is the explicit `ObserverDeallocated` transition.
  - What this loses: once a specific sender is deallocated, the key's `sender` property reads nil. Under the delivery rule, a listener registered for that one sender would then match every sender, and could no longer be removed by naming the pair it was registered with. The model does not capture that change, because it depends on how the implementation reads the weak property.
- Add after deallocation. The headers do not say what a registration does after the observer is gone. The model applies the same registry rules, and `Dispatch` fires nothing while the observer is dead.
- Thread safety. The map has no locking, and the model is sequential.
- `initWithObserver:` without a center. The header does not say which notification center this initializer uses, so it is not modelled separately. The one constructor, which models `initWithObserver:notificationCenter:`, takes the center as a parameter.
- AddObserverWithSelector: stores its listener with no queue. This is a modelling assumption. The header says only that the selector is performed on the observer. It does not say on which thread or queue.
- The lazily created `mcs_notificationController` property on `NSObject` is glue and is not part of this model.
- The legacy UIKit `MCNotificationController` is not part of this model. Its add returns nothing and has no documented semantics.
- The test helper `MCSCounter` and the version-number constants are not part of this model.
- Key hashing. It is Dafny's structural equality on the `Key` datatype, so equal keys (a key and its copy) are the same map key.
