/**
 * The event system: one list of registrations per event code, where a
 * registration pairs a listener instance with a callback. Firing a code offers
 * the event to the registrations in order until one of them reports it handled.
 * Pointers (listener, callback, sender) are opaque identities; a listener of 0
 * is the null listener and is allowed.
 */
module Event {
  import opened Defines
  import DArray

  /** MAX_MESSAGE_CODES: the size of the per-code lookup table. */
  const MaxMessageCodes: nat := 16384

  /** The system event codes; applications use codes above MaxEventCode. */
  const CodeApplicationQuit: u16 := 0x01
  const CodeKeyPressed: u16 := 0x02
  const CodeKeyReleased: u16 := 0x03
  const CodeButtonPressed: u16 := 0x04
  const CodeButtonReleased: u16 := 0x05
  const CodeMouseMoved: u16 := 0x06
  const CodeMouseWheel: u16 := 0x07
  const CodeResized: u16 := 0x08
  const MaxEventCode: u16 := 0xFF

  /**
   * The 16-byte event payload, seen through the union member its sender wrote:
   * the leading u16 words, or the leading u8 bytes. Members the sender did not
   * write are not modelled.
   */
  datatype EventContext = U16Data(u16s: seq<u16>) | U8Data(u8s: seq<u8>)

  /** A `registered_event`. */
  datatype Registration = Registration(listener: nat, callback: nat)

  /** The arguments of one EventFire call, passed on to every callback it invokes. */
  datatype Firing = Firing(code: u16, sender: nat, context: EventContext)

  /** Some registration in `list` has this listener. */
  predicate HasListenerIn(list: seq<Registration>, listener: nat)
  {
    exists i :: 0 <= i < |list| && list[i].listener == listener
  }

  /** No listener occurs twice in `list`. */
  predicate UniqueListeners(list: seq<Registration>)
  {
    forall i, j :: 0 <= i < j < |list| ==> list[i].listener != list[j].listener
  }

  /** The position of the first occurrence of `r` in `list`. */
  function IndexOf(list: seq<Registration>, r: Registration): (i: nat)
    requires r in list
    ensures i < |list| && list[i] == r
    ensures forall k :: 0 <= k < i ==> list[k] != r
  {
    if list[0] == r then 0 else 1 + IndexOf(list[1..], r)
  }

  /**
   * The position of the first registration in `list` whose callback returns
   * true for `firing`, where `respond(r, firing)` is what the callback of `r`
   * returns when called with `r.listener` and the firing's arguments.
   */
  function FirstHandler(list: seq<Registration>, respond: (Registration, Firing) -> bool, firing: Firing): (r: Option<nat>)
    ensures r.Some? ==> r.value < |list| && respond(list[r.value], firing)
    ensures r.Some? ==> forall k :: 0 <= k < r.value ==> !respond(list[k], firing)
    ensures r.None? ==> forall k :: 0 <= k < |list| ==> !respond(list[k], firing)
  {
    if list == [] then None
    else if respond(list[0], firing) then Some(0)
    else match FirstHandler(list[1..], respond, firing)
      case None => None
      case Some(i) => Some(i + 1)
  }

  /** The registrations one firing invokes: up to and including the first handler, or all of them. */
  function Dispatched(list: seq<Registration>, respond: (Registration, Firing) -> bool, firing: Firing): (r: seq<Registration>)
    ensures r <= list
    ensures |r| < |list| ==> FirstHandler(list, respond, firing).Some?
  {
    match FirstHandler(list, respond, firing)
    case None => list
    case Some(i) => list[..i + 1]
  }

  /**
   * Unregistering the registration just added gives back the list it was added
   * to: registrations are never reordered.
   */
  lemma UnregisterUndoesRegister(list: seq<Registration>, r: Registration)
    requires !HasListenerIn(list, r.listener)
    ensures r in list + [r]
    ensures DArray.Removed(list + [r], IndexOf(list + [r], r)) == list
  {
    assert (list + [r])[|list|] == r;
    var i := IndexOf(list + [r], r);
    assert i == |list|;
  }

  /** Appending a registration with a fresh listener keeps the listeners unique. */
  lemma {:induction false} AppendKeepsUnique(list: seq<Registration>, r: Registration)
    requires UniqueListeners(list) && !HasListenerIn(list, r.listener)
    ensures UniqueListeners(list + [r])
  {
    var l := list + [r];
    forall i, j | 0 <= i < j < |l| ensures l[i].listener != l[j].listener {
      if j == |list| {
        assert l[i] == list[i];
      } else {
        assert l[i] == list[i] && l[j] == list[j];
      }
    }
  }

  /** Removing a registration keeps the listeners unique. */
  lemma {:induction false} RemoveKeepsUnique(list: seq<Registration>, i: nat)
    requires UniqueListeners(list) && i < |list|
    ensures UniqueListeners(DArray.Removed(list, i))
  {
    var l := DArray.Removed(list, i);
    forall a, b | 0 <= a < b < |l| ensures l[a].listener != l[b].listener {
      var a' := if a < i then a else a + 1;
      var b' := if b < i then b else b + 1;
      assert l[a] == list[a'] && l[b] == list[b'];
    }
  }

  /**
   * The duplicate scan of EventRegister: whether some registration already has
   * this listener.
   */
  method HasListener(list: seq<Registration>, listener: nat) returns (found: bool)
    ensures found <==> HasListenerIn(list, listener)
  {
    var i := 0;
    while i < |list|
      invariant 0 <= i <= |list|
      invariant forall k :: 0 <= k < i ==> list[k].listener != listener
    {
      if list[i].listener == listener {
        return true;
      }
      i := i + 1;
    }
    return false;
  }

  /** The search of EventUnregister: the first matching listener/callback pair. */
  method FindRegistration(list: seq<Registration>, r: Registration) returns (index: Option<nat>)
    ensures r in list ==> index == Some(IndexOf(list, r))
    ensures r !in list ==> index == None
  {
    var i := 0;
    while i < |list|
      invariant 0 <= i <= |list|
      invariant forall k :: 0 <= k < i ==> list[k] != r
    {
      if list[i].listener == r.listener && list[i].callback == r.callback {
        assert list[i] == r;
        return Some(i);
      }
      i := i + 1;
    }
    return None;
  }

  /**
   * The event system state. A code absent from `registered` has a null list
   * (nothing was ever registered for it since the last shutdown); a present one
   * has a list, possibly empty.
   */
  class EventSystem {
    var initialized: bool
    var registered: map<u16, seq<Registration>>

    ghost predicate Valid()
      reads this
    {
      forall code | code in registered :: code < MaxMessageCodes && UniqueListeners(registered[code])
    }

    /** The list for `code`, an absent list read as empty. */
    function ListAt(code: u16): (list: seq<Registration>)
      reads this
      ensures code !in registered ==> list == []
      ensures code in registered ==> list == registered[code]
    {
      if code in registered then registered[code] else []
    }

    /** The zero-initialised static state before EventInitialize. */
    constructor ()
      ensures Valid() && !initialized && registered == map[]
    {
      initialized := false;
      registered := map[];
    }

    /** EventInitialize: zeroes the table the first time; a second call fails and changes nothing. */
    method Initialize() returns (ok: bool)
      requires Valid()
      modifies this
      ensures Valid()
      ensures ok <==> !old(initialized)
      ensures initialized
      ensures ok ==> registered == map[]
      ensures !ok ==> registered == old(registered)
    {
      if initialized {
        return false;
      }
      initialized := false;
      registered := map[];
      initialized := true;
      return true;
    }

    /**
     * EventShutdown: destroys every list. The system stays initialised, so
     * registering afterwards starts from null lists.
     */
    method Shutdown()
      modifies this`registered
      ensures Valid() && registered == map[]
    {
      registered := map[];
    }

    /**
     * EventRegister: creates the list for `code` if there is none, then refuses
     * a listener already in the list, whatever its callback, and otherwise
     * appends the registration.
     */
    method Register(code: u16, listener: nat, callback: nat) returns (ok: bool)
      requires Valid() && code < MaxMessageCodes
      modifies this`registered
      ensures Valid()
      ensures ok <==> initialized && !HasListenerIn(old(ListAt(code)), listener)
      ensures !initialized ==> registered == old(registered)
      ensures ok ==> registered == old(registered)[code := old(ListAt(code)) + [Registration(listener, callback)]]
      ensures initialized && !ok ==> registered == old(registered)[code := old(ListAt(code))]
    {
      if !initialized {
        return false;
      }
      if code !in registered {
        registered := registered[code := []];
      }
      var list := registered[code];
      var duplicate := HasListener(list, listener);
      if duplicate {
        return false;
      }
      AppendKeepsUnique(list, Registration(listener, callback));
      registered := registered[code := list + [Registration(listener, callback)]];
      return true;
    }

    /**
     * EventUnregister: removes the first registration with this listener and
     * callback, keeping the others in order; fails when the system is not
     * initialised, the list is null or no registration matches.
     */
    method Unregister(code: u16, listener: nat, callback: nat) returns (ok: bool)
      requires Valid() && code < MaxMessageCodes
      modifies this`registered
      ensures Valid()
      ensures ok <==> initialized && code in old(registered) && Registration(listener, callback) in old(registered[code])
      ensures !ok ==> registered == old(registered)
      ensures ok ==> registered == old(registered)[code :=
        DArray.Removed(old(registered[code]), IndexOf(old(registered[code]), Registration(listener, callback)))]
    {
      if !initialized {
        return false;
      }
      if code !in registered {
        return false;
      }
      var list := registered[code];
      var index := FindRegistration(list, Registration(listener, callback));
      if index.Some? {
        RemoveKeepsUnique(list, index.value);
        registered := registered[code := DArray.Removed(list, index.value)];
        return true;
      }
      return false;
    }

    /**
     * EventFire: offers the event to the registrations of `code` in order and
     * stops at the first callback that returns true. `invoked` lists the
     * registrations whose callbacks were called.
     */
    method Fire(code: u16, sender: nat, context: EventContext, respond: (Registration, Firing) -> bool)
      returns (handled: bool, invoked: seq<Registration>)
      requires code < MaxMessageCodes
      ensures !initialized || code !in registered ==> !handled && invoked == []
      ensures initialized && code in registered ==>
        handled == FirstHandler(registered[code], respond, Firing(code, sender, context)).Some?
      ensures initialized && code in registered ==>
        invoked == Dispatched(registered[code], respond, Firing(code, sender, context))
    {
      if !initialized {
        return false, [];
      }
      if code !in registered {
        return false, [];
      }
      var list := registered[code];
      var firing := Firing(code, sender, context);
      var i := 0;
      while i < |list|
        invariant 0 <= i <= |list|
        invariant forall k :: 0 <= k < i ==> !respond(list[k], firing)
      {
        if respond(list[i], firing) {
          return true, list[..i + 1];
        }
        i := i + 1;
      }
      return false, list;
    }
  }

  /** A handled firing ends with the one callback that handled it; all before it declined. */
  lemma DispatchedEndsAtHandler(list: seq<Registration>, respond: (Registration, Firing) -> bool, firing: Firing)
    requires FirstHandler(list, respond, firing).Some?
    ensures |Dispatched(list, respond, firing)| > 0
    ensures respond(Dispatched(list, respond, firing)[|Dispatched(list, respond, firing)| - 1], firing)
    ensures forall k :: 0 <= k < |Dispatched(list, respond, firing)| - 1 ==> !respond(Dispatched(list, respond, firing)[k], firing)
  {
  }

  /** A firing nobody handles reaches every registration. */
  lemma UnhandledReachesAll(list: seq<Registration>, respond: (Registration, Firing) -> bool, firing: Firing)
    requires forall k :: 0 <= k < |list| ==> !respond(list[k], firing)
    ensures Dispatched(list, respond, firing) == list
  {
  }
}
