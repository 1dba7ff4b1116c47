/** The registry of orientation-change subscriptions: the module-level list
    every `addOrientationChangeListener` appends to and the two removal calls
    empty or filter. Each subscription is a handle to a listener bound to the
    native event emitter; `remove()` on it unbinds that listener. The emitter
    itself is outside the model: the registry keeps a log of the `remove()`
    calls it makes, in order.
 */
module Subscriptions {
  import opened ScreenOrientation

  /** A handle returned by the event emitter's `addListener`. Handles are
      compared by identity, as `!==` does. `listener` is the caller's
      listener; the handler the emitter receives wraps it (see `ChangeEvent`
      and `HandlerNativeQueries`). */
  class EmitterSubscription {
    const eventType: string
    const listener: JsValue

    constructor (eventType: string, listener: JsValue)
      ensures this.eventType == eventType && this.listener == listener
    {
      this.eventType := eventType;
      this.listener := listener;
    }
  }

  /** The argument of `removeOrientationChangeListener`: a falsy value, an
      object whose `remove` is missing or falsy, an object whose `remove` is
      truthy but not a function, or a subscription. */
  datatype SubscriptionArg =
    | Falsy
    | WithoutRemove
    | RemoveNotCallable
    | Given(subscription: EmitterSubscription)

  datatype AddResult =
    | Subscribed(subscription: EmitterSubscription)
    | AddRejected(reason: TypeErrorReason)

  predicate Distinct<T(==)>(s: seq<T>) {
    forall i, j :: 0 <= i < j < |s| ==> s[i] != s[j]
  }

  /** `s` read back to front. */
  function Reversed<T>(s: seq<T>): seq<T> {
    if s == [] then [] else Reversed(s[1..]) + [s[0]]
  }

  /** `s.filter(x => x !== h)`. */
  function Without<T(==)>(s: seq<T>, h: T): seq<T> {
    if s == [] then []
    else if s[0] == h then Without(s[1..], h)
    else [s[0]] + Without(s[1..], h)
  }

  lemma {:induction false} ReversedAt<T>(s: seq<T>, k: nat)
    requires k < |s|
    ensures |Reversed(s)| == |s| && Reversed(s)[k] == s[|s| - 1 - k]
  {
    ReversedLength(s[1..]);
    if k < |s| - 1 {
      ReversedAt(s[1..], k);
    }
  }

  lemma {:induction false} ReversedLength<T>(s: seq<T>)
    ensures |Reversed(s)| == |s|
  {
    if s != [] {
      ReversedLength(s[1..]);
    }
  }

  /** Reversal neither adds nor drops an element, nor changes how often one occurs. */
  lemma {:induction false} ReversedMultiset<T>(s: seq<T>)
    ensures multiset(Reversed(s)) == multiset(s)
  {
    if s != [] {
      ReversedMultiset(s[1..]);
      assert s == [s[0]] + s[1..];
    }
  }

  /** Reversing a suffix that grows by one element on the left appends that element. */
  lemma ReversedExtend<T>(s: seq<T>, i: nat)
    requires 0 < i <= |s|
    ensures Reversed(s[i - 1..]) == Reversed(s[i..]) + [s[i - 1]]
  {
    assert s[i - 1..][1..] == s[i..];
  }

  /** The filter keeps exactly the elements other than `h`. */
  lemma {:induction false} WithoutMembers<T>(s: seq<T>, h: T, x: T)
    ensures x in Without(s, h) <==> x in s && x != h
  {
    if s != [] {
      WithoutMembers(s[1..], h, x);
      assert s == [s[0]] + s[1..];
    }
  }

  /** The filter drops every occurrence of `h` and keeps every other count. */
  lemma {:induction false} WithoutMultiset<T>(s: seq<T>, h: T)
    ensures multiset(Without(s, h)) == multiset(s)[h := 0]
  {
    if s != [] {
      WithoutMultiset(s[1..], h);
      assert s == [s[0]] + s[1..];
    }
  }

  /** The filter works piecewise, so the kept elements stay in their order. */
  lemma {:induction false} WithoutConcat<T>(a: seq<T>, b: seq<T>, h: T)
    ensures Without(a + b, h) == Without(a, h) + Without(b, h)
  {
    if a != [] {
      WithoutConcat(a[1..], b, h);
      assert (a + b)[1..] == a[1..] + b;
    } else {
      assert a + b == b;
    }
  }

  /** Filtering out a handle that is not there changes nothing. */
  lemma {:induction false} WithoutAbsent<T>(s: seq<T>, h: T)
    requires h !in s
    ensures Without(s, h) == s
  {
    if s != [] {
      WithoutAbsent(s[1..], h);
      assert s == [s[0]] + s[1..];
    }
  }

  lemma {:induction false} WithoutDistinct<T>(s: seq<T>, h: T)
    requires Distinct(s)
    ensures Distinct(Without(s, h))
  {
    if s != [] {
      assert Distinct(s[1..]) by {
        forall i, j | 0 <= i < j < |s[1..]| ensures s[1..][i] != s[1..][j] {
          assert s[1..][i] == s[i + 1] && s[1..][j] == s[j + 1];
        }
      }
      WithoutDistinct(s[1..], h);
      if s[0] != h {
        var rest := Without(s[1..], h);
        assert s[0] !in rest by {
          WithoutMembers(s[1..], h, s[0]);
        }
        forall i, j | 0 <= i < j < |[s[0]] + rest| ensures ([s[0]] + rest)[i] != ([s[0]] + rest)[j] {
          if i == 0 {
            assert ([s[0]] + rest)[j] == rest[j - 1];
          } else {
            assert ([s[0]] + rest)[i] == rest[i - 1] && ([s[0]] + rest)[j] == rest[j - 1];
          }
        }
      }
    }
  }

  /** In a list without repeats every element occurs once. */
  lemma {:induction false} DistinctOccursOnce<T>(s: seq<T>, x: T)
    requires Distinct(s) && x in s
    ensures multiset(s)[x] == 1
  {
    assert s == [s[0]] + s[1..];
    assert Distinct(s[1..]) by {
      forall i, j | 0 <= i < j < |s[1..]| ensures s[1..][i] != s[1..][j] {
        assert s[1..][i] == s[i + 1] && s[1..][j] == s[j + 1];
      }
    }
    if s[0] == x {
      assert multiset(s[1..])[x] == 0;
    } else {
      DistinctOccursOnce(s[1..], x);
    }
  }

  /** Removing every registered subscription back to front calls `remove()`
      exactly once on each of them and on nothing else. */
  lemma RemoveAllCallsEachOnce(s: seq<EmitterSubscription>, h: EmitterSubscription)
    requires Distinct(s)
    ensures multiset(Reversed(s))[h] == if h in s then 1 else 0
  {
    ReversedMultiset(s);
    if h in s {
      DistinctOccursOnce(s, h);
    }
  }

  /** Filtering a registered handle out of a list without repeats removes
      exactly one entry. */
  lemma RemoveOneShrinksByOne(s: seq<EmitterSubscription>, h: EmitterSubscription)
    requires Distinct(s) && h in s
    ensures |Without(s, h)| == |s| - 1
  {
    WithoutMultiset(s, h);
    DistinctOccursOnce(s, h);
    assert |multiset(Without(s, h))| == |multiset(s)| - 1;
  }

  /** The module-level `_orientationChangeSubscribers` list. */
  class OrientationChangeSubscribers {
    var subscribers: seq<EmitterSubscription>
    /** The subscriptions `remove()` has been called on, in call order. */
    ghost var removeCalls: seq<EmitterSubscription>

    /** Every handle in the list was freshly created by the emitter, so none
        occurs twice. No listed handle has had `remove()` called on it by the
        registry; a holder of a returned handle may call it directly, which
        the log does not see. */
    ghost predicate Valid()
      reads this
    {
      && Distinct(subscribers)
      && forall h :: h in subscribers ==> h !in removeCalls
    }

    constructor ()
      ensures Valid()
      ensures subscribers == [] && removeCalls == []
    {
      subscribers := [];
      removeCalls := [];
    }

    method AddOrientationChangeListener(platform: Platform, listener: JsValue) returns (r: AddResult)
      requires Valid()
      modifies this
      ensures Valid()
      ensures removeCalls == old(removeCalls)
      ensures r.AddRejected? <==> !listener.Function?
      ensures r.AddRejected? ==>
                r.reason == ListenerNotFunction(listener) && subscribers == old(subscribers)
      ensures r.Subscribed? ==>
                fresh(r.subscription) &&
                r.subscription.eventType == EventName(platform) &&
                r.subscription.listener == listener &&
                subscribers == old(subscribers) + [r.subscription]
    {
      if !listener.Function? {
        return AddRejected(ListenerNotFunction(listener));
      }
      var subscription := new EmitterSubscription(EventName(platform), listener);
      subscribers := subscribers + [subscription];
      r := Subscribed(subscription);
    }

    method RemoveOrientationChangeListeners()
      requires Valid()
      modifies this
      ensures Valid()
      ensures subscribers == []
      ensures removeCalls == old(removeCalls) + Reversed(old(subscribers))
    {
      ghost var registered := subscribers;
      var i := |subscribers|;
      while i > 0
        invariant 0 <= i <= |registered|
        invariant subscribers == registered[..i]
        invariant removeCalls == old(removeCalls) + Reversed(registered[i..])
      {
        i := i - 1;
        var subscriber := subscribers[i];
        removeCalls := removeCalls + [subscriber];  // subscriber.remove()
        subscribers := subscribers[..|subscribers| - 1];  // pop()
        ReversedExtend(registered, i + 1);
      }
      assert registered[0..] == registered;
    }

    method RemoveOrientationChangeListener(arg: SubscriptionArg) returns (error: Option<TypeErrorReason>)
      requires Valid()
      modifies this
      ensures Valid()
      ensures error.Some? <==> !arg.Given?
      ensures error.Some? ==> subscribers == old(subscribers) && removeCalls == old(removeCalls)
      // the guard rejects falsy arguments and a missing or falsy `remove`
      ensures arg.Falsy? || arg.WithoutRemove? ==> error == Some(InvalidSubscription)
      // a truthy `remove` that is not a function passes the guard and fails when called
      ensures arg.RemoveNotCallable? ==> error == Some(RemoveNotAFunction)
      ensures arg.Given? ==>
                removeCalls == old(removeCalls) + [arg.subscription] &&
                subscribers == Without(old(subscribers), arg.subscription)
    {
      if arg.Falsy? || arg.WithoutRemove? {
        return Some(InvalidSubscription);
      }
      if arg.RemoveNotCallable? {
        return Some(RemoveNotAFunction);  // subscription.remove() throws before the filter
      }
      removeCalls := removeCalls + [arg.subscription];  // subscription.remove()
      WithoutDistinct(subscribers, arg.subscription);
      forall h | h in Without(subscribers, arg.subscription) ensures h in subscribers && h != arg.subscription {
        WithoutMembers(subscribers, arg.subscription, h);
      }
      subscribers := Without(subscribers, arg.subscription);
      error := None;
    }
  }
}
