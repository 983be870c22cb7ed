/** The signal handlers of djangoerp/notifications/signals.py that keep the
    followers of an observable instance and report its changes. */
module NotificationSignals {
  import opened Wrappers

  /** A call the handler makes on the instance: `follow(x)` or
      `unfollow(x)`. What the calls store is not part of this model. */
  datatype Call<V> = Follow(who: V) | Unfollow(who: V)

  /** The recorded changes, `_Observable__changes.items()`: a field name
      with its (old value, new value). */
  type Changes<V> = seq<(string, (V, V))>

  /** The names of the recorded changes are those of a dictionary. */
  ghost predicate DistinctNames<V>(items: Changes<V>) {
    forall i, j :: 0 <= i < j < |items| ==> items[i].0 != items[j].0
  }

  /** `changes`: the recorded entries whose value differs from the old
      one. */
  function Changed<V(==)>(items: Changes<V>): map<string, (V, V)> {
    if items == [] then map[]
    else
      var last := items[|items| - 1];
      var before := Changed(items[..|items| - 1]);
      if last.1.1 != last.1.0 then before[last.0 := last.1] else before
  }

  /** A field is reported iff its recorded value changed, and it is
      reported with its recorded (old, new) pair. */
  lemma {:induction false} ChangedIff<V>(items: Changes<V>, i: nat)
    requires DistinctNames(items) && i < |items|
    ensures items[i].0 in Changed(items) <==> items[i].1.0 != items[i].1.1
    ensures items[i].0 in Changed(items) ==> Changed(items)[items[i].0] == items[i].1
  {
    var n := |items| - 1;
    if i < n {
      ChangedIff(items[..n], i);
    } else {
      ChangedMissing(items[..n], items[n].0);
    }
  }

  /** A name that is not recorded is not reported. */
  lemma {:induction false} ChangedMissing<V>(items: Changes<V>, name: string)
    requires forall i :: 0 <= i < |items| ==> items[i].0 != name
    ensures name !in Changed(items)
  {
    if items != [] {
      ChangedMissing(items[..|items| - 1], name);
    }
  }

  /** The calls an update makes: for each changed subscriber field, the old
      value is unfollowed and then the new one followed. */
  function ResubscribeCalls<V(==)>(items: Changes<V>, subscriberFields: seq<string>): seq<Call<V>> {
    if items == [] then []
    else
      var last := items[|items| - 1];
      ResubscribeCalls(items[..|items| - 1], subscriberFields)
        + (if last.1.1 != last.1.0 && last.0 in subscriberFields then [Unfollow(last.1.0), Follow(last.1.1)] else [])
  }

  /** Each call an update makes is the unfollow of the old value or the
      follow of the new value of a changed subscriber field, and every
      changed subscriber field makes both; unchanged fields make none. */
  lemma ResubscribeCallsIff<V>(items: Changes<V>, subscriberFields: seq<string>)
    ensures forall c :: c in ResubscribeCalls(items, subscriberFields) ==>
              exists i :: 0 <= i < |items| && items[i].1.0 != items[i].1.1 && items[i].0 in subscriberFields
                && (c == Unfollow(items[i].1.0) || c == Follow(items[i].1.1))
    ensures forall i :: 0 <= i < |items| && items[i].1.0 != items[i].1.1 && items[i].0 in subscriberFields ==>
              Unfollow(items[i].1.0) in ResubscribeCalls(items, subscriberFields)
              && Follow(items[i].1.1) in ResubscribeCalls(items, subscriberFields)
  {
    forall c | c in ResubscribeCalls(items, subscriberFields)
      ensures exists i :: 0 <= i < |items| && items[i].1.0 != items[i].1.1 && items[i].0 in subscriberFields
                && (c == Unfollow(items[i].1.0) || c == Follow(items[i].1.1))
    {
      ResubscribeCallSource(items, subscriberFields, c);
    }
    forall i | 0 <= i < |items| && items[i].1.0 != items[i].1.1 && items[i].0 in subscriberFields
      ensures Unfollow(items[i].1.0) in ResubscribeCalls(items, subscriberFields)
              && Follow(items[i].1.1) in ResubscribeCalls(items, subscriberFields)
    {
      ResubscribeCallMade(items, subscriberFields, i);
    }
  }

  lemma {:induction false} ResubscribeCallSource<V>(items: Changes<V>, subscriberFields: seq<string>, c: Call<V>)
    requires c in ResubscribeCalls(items, subscriberFields)
    ensures exists i :: 0 <= i < |items| && items[i].1.0 != items[i].1.1 && items[i].0 in subscriberFields
              && (c == Unfollow(items[i].1.0) || c == Follow(items[i].1.1))
  {
    var n := |items| - 1;
    var init := items[..n];
    var last := items[n];
    if c in ResubscribeCalls(init, subscriberFields) {
      ResubscribeCallSource(init, subscriberFields, c);
      var i :| 0 <= i < |init| && init[i].1.0 != init[i].1.1 && init[i].0 in subscriberFields
                && (c == Unfollow(init[i].1.0) || c == Follow(init[i].1.1));
      assert init[i] == items[i];
    } else {
      assert last.1.1 != last.1.0 && last.0 in subscriberFields && (c == Unfollow(last.1.0) || c == Follow(last.1.1));
    }
  }

  lemma {:induction false} ResubscribeCallMade<V>(items: Changes<V>, subscriberFields: seq<string>, i: nat)
    requires i < |items| && items[i].1.0 != items[i].1.1 && items[i].0 in subscriberFields
    ensures Unfollow(items[i].1.0) in ResubscribeCalls(items, subscriberFields)
    ensures Follow(items[i].1.1) in ResubscribeCalls(items, subscriberFields)
  {
    var n := |items| - 1;
    if i < n {
      var init := items[..n];
      assert init[i] == items[i];
      ResubscribeCallMade(init, subscriberFields, i);
    }
  }

  /** The calls on creation: the instance follows itself, then each
      subscriber field it has, in order. */
  function CreationCalls<V>(me: V, subscriberFields: seq<string>, attrs: map<string, V>): (calls: seq<Call<V>>)
    ensures |calls| >= 1 && calls[0] == Follow(me)
  {
    [Follow(me)] + FieldFollows(subscriberFields, attrs)
  }

  function FieldFollows<V>(fields: seq<string>, attrs: map<string, V>): (calls: seq<Call<V>>)
    ensures forall c :: c in calls ==> c.Follow? && exists f :: f in fields && f in attrs && c.who == attrs[f]
    ensures forall f :: f in fields && f in attrs ==> Follow(attrs[f]) in calls
  {
    if fields == [] then []
    else
      var last := fields[|fields| - 1];
      var init := FieldFollows(fields[..|fields| - 1], attrs);
      assert forall f :: f in fields[..|fields| - 1] ==> f in fields;
      init + (if last in attrs then [Follow(attrs[last])] else [])
  }

  /** An instance of an observable model. `attrs` are the subscriber fields
      it has, with their values. */
  class Observed<V(==)> {
    const me: V
    const subscriberFields: seq<string>
    const attrs: map<string, V>
    var changes: Changes<V>
    var followersCache: Option<seq<V>>

    constructor (me: V, subscriberFields: seq<string>, attrs: map<string, V>, changes: Changes<V>)
      ensures this.me == me && this.subscriberFields == subscriberFields && this.attrs == attrs
      ensures this.changes == changes && followersCache.None?
    {
      this.me := me;
      this.subscriberFields := subscriberFields;
      this.attrs := attrs;
      this.changes := changes;
      followersCache := None;
    }

    /** `_notify_changes(sender, instance, created)`: the follow and unfollow
        calls, and the changes sent with `post_change`, if it is sent. */
    method NotifyChanges(observable: bool, created: bool) returns (calls: seq<Call<V>>, sent: Option<map<string, (V, V)>>)
      modifies this
      ensures !observable || created ==> changes == old(changes) && sent.None?
      ensures !observable ==> calls == []
      ensures observable && created ==> calls == CreationCalls(me, subscriberFields, attrs)
      ensures observable && !created ==> calls == ResubscribeCalls(old(changes), subscriberFields) && changes == []
      ensures observable && !created ==> (sent.Some? <==> Changed(old(changes)) != map[])
      ensures sent.Some? ==> sent.value == Changed(old(changes))
    {
      calls, sent := [], None;
      if !observable {
        return;
      }
      if created {
        calls := [Follow(me)];
        var j := 0;
        while j < |subscriberFields|
          invariant 0 <= j <= |subscriberFields|
          invariant calls == [Follow(me)] + FieldFollows(subscriberFields[..j], attrs)
        {
          assert subscriberFields[..j + 1][..j] == subscriberFields[..j];
          var sf := subscriberFields[j];
          if sf in attrs {
            calls := calls + [Follow(attrs[sf])];
          }
          j := j + 1;
        }
        assert subscriberFields[..j] == subscriberFields;
        return;
      }
      var items := changes;
      var found: map<string, (V, V)> := map[];
      var i := 0;
      while i < |items|
        invariant 0 <= i <= |items|
        invariant found == Changed(items[..i])
        invariant calls == ResubscribeCalls(items[..i], subscriberFields)
      {
        assert items[..i + 1][..i] == items[..i];
        var (name, (oldValue, value)) := items[i];
        if value != oldValue {
          found := found[name := (oldValue, value)];
          if name in subscriberFields {
            calls := calls + [Unfollow(oldValue), Follow(value)];
          }
        }
        i := i + 1;
      }
      assert items[..i] == items;
      changes := [];
      if found != map[] {
        sent := Some(found);
      }
    }

    /** `_cache_followers`: the cache holds the instance's current
        followers. */
    method CacheFollowers(observable: bool, followers: seq<V>)
      modifies this
      ensures observable ==> followersCache == Some(followers)
      ensures !observable ==> followersCache == old(followersCache)
      ensures changes == old(changes)
    {
      if observable {
        if followersCache.Some? {
          followersCache := None;
        }
        followersCache := Some(followers);
      }
    }
  }
}

/** The query sets and the activity manager of
    djangoerp/notifications/managers.py. */
module NotificationManagers {
  import opened Wrappers
  import opened Text

  // ---------------------------------------------------------------------
  // generic foreign keys in filters
  // ---------------------------------------------------------------------

  /** A filter argument: a model instance, a primary key, a content type or
      any other value. */
  datatype Arg = Instance(pk: nat, contentType: nat) | Key(pk: nat) | TypeOf(contentType: nat) | Plain(text: string)

  /** A generic foreign key of the model: its name and its two fields. */
  datatype Gfk = Gfk(name: string, fkField: string, ctField: string)

  /** `param.pk` on a value that is not an instance. */
  datatype GfkError = AttributeError

  /** One step of `_GFKQuerySet.filter`: a keyword naming the generic key is
      replaced by its primary key and its content type. */
  function RewriteOne(kwargs: map<string, Arg>, g: Gfk): Result<map<string, Arg>, GfkError> {
    if g.name !in kwargs then Ok(kwargs)
    else match kwargs[g.name]
      case Instance(pk, ct) => Ok((kwargs - {g.name})[g.fkField := Key(pk)][g.ctField := TypeOf(ct)])
      case _ => Err(AttributeError)
  }

  /** All the generic keys of the model, in order. */
  function Rewrite(kwargs: map<string, Arg>, gfks: seq<Gfk>): Result<map<string, Arg>, GfkError>
    decreases |gfks|
  {
    if gfks == [] then Ok(kwargs)
    else match RewriteOne(kwargs, gfks[0])
      case Err(e) => Err(e)
      case Ok(next) => Rewrite(next, gfks[1..])
  }

  /** The keyword of a generic key given an instance becomes its two
      fields. */
  lemma RewriteInstance(kwargs: map<string, Arg>, g: Gfk, pk: nat, ct: nat)
    requires g.name in kwargs && kwargs[g.name] == Instance(pk, ct)
    requires g.name != g.fkField && g.name != g.ctField && g.fkField != g.ctField
    ensures RewriteOne(kwargs, g).Ok?
    ensures var r := RewriteOne(kwargs, g).value;
            g.name !in r && r[g.fkField] == Key(pk) && r[g.ctField] == TypeOf(ct)
  {
  }

  /** A keyword that is no generic key's name or field passes through
      untouched. */
  lemma {:induction false} RewriteKeepsOthers(kwargs: map<string, Arg>, gfks: seq<Gfk>, k: string)
    requires forall g :: g in gfks ==> k != g.name && k != g.fkField && k != g.ctField
    requires Rewrite(kwargs, gfks).Ok?
    ensures (k in Rewrite(kwargs, gfks).value <==> k in kwargs)
    ensures k in kwargs ==> Rewrite(kwargs, gfks).value[k] == kwargs[k]
    decreases |gfks|
  {
    if gfks != [] {
      assert gfks[0] in gfks;
      assert forall g :: g in gfks[1..] ==> g in gfks;
      RewriteKeepsOthers(RewriteOne(kwargs, gfks[0]).value, gfks[1..], k);
    }
  }

  /** `_GFKQuerySet.filter(**kwargs)`: the keywords it passes on. */
  method Filter(kwargs: map<string, Arg>, gfks: seq<Gfk>) returns (r: Result<map<string, Arg>, GfkError>)
    ensures r == Rewrite(kwargs, gfks)
  {
    var args := kwargs;
    var i := 0;
    while i < |gfks|
      invariant 0 <= i <= |gfks|
      invariant Rewrite(kwargs, gfks) == Rewrite(args, gfks[i..])
    {
      assert gfks[i..][1..] == gfks[i + 1..];
      var g := gfks[i];
      if g.name in args {
        var param := args[g.name];
        if !param.Instance? {
          return Err(AttributeError);
        }
        args := args - {g.name};
        args := args[g.fkField := Key(param.pk)];
        args := args[g.ctField := TypeOf(param.contentType)];
      }
      i := i + 1;
    }
    r := Ok(args);
  }

  // ---------------------------------------------------------------------
  // read and unread notifications
  // ---------------------------------------------------------------------

  /** A notification: its target and when it was read, if it was. */
  datatype Notification<T> = Notification(target: T, read: Option<nat>)

  /** `filter(read__isnull=False)` */
  function Read<T>(ns: seq<Notification<T>>): seq<Notification<T>> {
    if ns == [] then [] else (if ns[0].read.Some? then [ns[0]] else []) + Read(ns[1..])
  }

  /** `filter(read__isnull=True)` */
  function Unread<T>(ns: seq<Notification<T>>): seq<Notification<T>> {
    if ns == [] then [] else (if ns[0].read.None? then [ns[0]] else []) + Unread(ns[1..])
  }

  /** `for_object(instance)` */
  function ForObject<T(==)>(ns: seq<Notification<T>>, o: T): seq<Notification<T>> {
    if ns == [] then [] else (if ns[0].target == o then [ns[0]] else []) + ForObject(ns[1..], o)
  }

  /** The read notifications are exactly those with a read time, the unread
      ones exactly those without, and `for_object` keeps exactly those
      targeting the object. */
  lemma {:induction false} Members<T>(ns: seq<Notification<T>>, o: T, n: Notification<T>)
    ensures n in Read(ns) <==> n in ns && n.read.Some?
    ensures n in Unread(ns) <==> n in ns && n.read.None?
    ensures n in ForObject(ns, o) <==> n in ns && n.target == o
  {
    if ns != [] {
      Members(ns[1..], o, n);
      assert ns == [ns[0]] + ns[1..];
    }
  }

  /** Every notification is either read or unread, never both, and none is
      lost or repeated. */
  lemma {:induction false} ReadUnreadPartition<T>(ns: seq<Notification<T>>)
    ensures multiset(Read(ns)) + multiset(Unread(ns)) == multiset(ns)
  {
    if ns != [] {
      ReadUnreadPartition(ns[1..]);
      assert ns == [ns[0]] + ns[1..];
    }
  }

  /** `read_for_object` and `unread_for_object` are `for_object` narrowed by
      read state, and narrowing commutes. */
  lemma {:induction false} ReadForObjectCommutes<T>(ns: seq<Notification<T>>, o: T)
    ensures Read(ForObject(ns, o)) == ForObject(Read(ns), o)
    ensures Unread(ForObject(ns, o)) == ForObject(Unread(ns), o)
  {
    if ns != [] {
      var rest := ns[1..];
      ReadForObjectCommutes(rest, o);
      var h := if ns[0].target == o then [ns[0]] else [];
      assert ForObject(ns, o) == h + ForObject(rest, o);
      ReadAppend(h, ForObject(rest, o));
      var r := if ns[0].read.Some? then [ns[0]] else [];
      var u := if ns[0].read.None? then [ns[0]] else [];
      assert Read(ns) == r + Read(rest);
      assert Unread(ns) == u + Unread(rest);
      ForObjectAppend(r, Read(rest), o);
      ForObjectAppend(u, Unread(rest), o);
    }
  }

  lemma {:induction false} ForObjectAppend<T>(a: seq<Notification<T>>, b: seq<Notification<T>>, o: T)
    ensures ForObject(a + b, o) == ForObject(a, o) + ForObject(b, o)
  {
    if a != [] {
      assert (a + b)[0] == a[0];
      assert (a + b)[1..] == a[1..] + b;
      ForObjectAppend(a[1..], b, o);
    } else {
      assert a + b == b;
    }
  }

  lemma {:induction false} ReadAppend<T>(a: seq<Notification<T>>, b: seq<Notification<T>>)
    ensures Read(a + b) == Read(a) + Read(b)
    ensures Unread(a + b) == Unread(a) + Unread(b)
  {
    if a != [] {
      assert (a + b)[0] == a[0];
      assert (a + b)[1..] == a[1..] + b;
      ReadAppend(a[1..], b);
    } else {
      assert a + b == b;
    }
  }

  // ---------------------------------------------------------------------
  // activities
  // ---------------------------------------------------------------------

  /** The fields `get_or_create` looks a notification up by. */
  datatype NotificationKey<V> = NotificationKey(title: string, description: string, target: V, signature: string, dispatchUid: string)

  /** A follower is notified when it is the source itself or subscribes to
      the activity's signature. */
  predicate Notified<V(==)>(follower: V, source: V, subscribers: set<V>) {
    follower == source || follower in subscribers
  }

  /** The notifications the followers, in order, get. */
  function NotifiedKeys<V(==)>(followers: seq<V>, source: V, subscribers: set<V>, title: string, content: string, slug: string, pk: nat)
    : set<NotificationKey<V>>
  {
    if followers == [] then {}
    else
      var last := followers[|followers| - 1];
      NotifiedKeys(followers[..|followers| - 1], source, subscribers, title, content, slug, pk)
        + (if Notified(last, source, subscribers) then {NotificationKey(title, content, last, slug, NatToString(pk))} else {})
  }

  /** One notification per notified follower of the activity: a follower
      gets one iff the rule says so, and never two. */
  lemma {:induction false} NotifiedKeysIff<V>(followers: seq<V>, source: V, subscribers: set<V>, title: string, content: string, slug: string, pk: nat, k: NotificationKey<V>)
    ensures k in NotifiedKeys(followers, source, subscribers, title, content, slug, pk) <==>
              k.target in followers && Notified(k.target, source, subscribers)
              && k == NotificationKey(title, content, k.target, slug, NatToString(pk))
  {
    if followers != [] {
      var n := |followers| - 1;
      NotifiedKeysIff(followers[..n], source, subscribers, title, content, slug, pk, k);
      assert followers == followers[..n] + [followers[n]];
    }
  }

  /** Activities' side tables: signature slugs and notifications. */
  class ActivityStore<V(==)> {
    var signatures: set<string>
    var notifications: set<NotificationKey<V>>

    constructor (signatures: set<string>, notifications: set<NotificationKey<V>>)
      ensures this.signatures == signatures && this.notifications == notifications
    {
      this.signatures := signatures;
      this.notifications := notifications;
    }

    /** `ActivityManager.create(...)` after the activity row is saved with
        primary key `pk`: the signature row is got or created, then each
        follower of the source that the rule selects gets a notification.
        Without a source, `source.followers()` raises after the signature
        is created. */
    method NotifyFollowers(title: string, content: string, slug: string, pk: nat, source: Option<V>,
                           followers: seq<V>, subscribers: set<V>) returns (r: Outcome<GfkError>)
      modifies this
      ensures signatures == old(signatures) + {slug}
      ensures source.None? ==> r == Fail(AttributeError) && notifications == old(notifications)
      ensures source.Some? ==> r == Pass
      ensures source.Some? ==>
                notifications == old(notifications) + NotifiedKeys(followers, source.value, subscribers, title, content, slug, pk)
    {
      signatures := signatures + {slug};
      if source.None? {
        return Fail(AttributeError);
      }
      var i := 0;
      while i < |followers|
        invariant 0 <= i <= |followers|
        invariant signatures == old(signatures) + {slug}
        invariant notifications == old(notifications) + NotifiedKeys(followers[..i], source.value, subscribers, title, content, slug, pk)
      {
        assert followers[..i + 1][..i] == followers[..i];
        var follower := followers[i];
        if follower == source.value || follower in subscribers {
          notifications := notifications + {NotificationKey(title, content, follower, slug, NatToString(pk))};
        }
        i := i + 1;
      }
      assert followers[..i] == followers;
      r := Pass;
    }
  }
}

/** The subscription form of djangoerp/notifications/forms.py. */
module NotificationForms {
  import opened Wrappers

  /** `SubscriptionWidget.decompress(value)`: the values of the dictionary,
      in its iteration order, or (False, False) for an empty or missing
      value. */
  function Decompress(value: seq<(string, bool)>): (r: seq<bool>)
    ensures value == [] ==> r == [false, false]
    ensures value != [] ==> |r| == |value| && forall i :: 0 <= i < |value| ==> r[i] == value[i].1
  {
    if value == [] then [false, false] else seq(|value|, i requires 0 <= i < |value| => value[i].1)
  }

  /** `SubscriptionField.compress(data_list)` */
  function Compress(dataList: seq<bool>): (r: Option<(bool, bool)>)
    ensures r.Some? <==> |dataList| >= 2
    ensures r.Some? ==> r.value == (dataList[0], dataList[1])
  {
    if |dataList| >= 2 then Some((dataList[0], dataList[1])) else None
  }

  /** Compressing what a two-entry value decompresses to gives its two
      flags back, and an empty value reads as not subscribed. */
  lemma CompressDecompress(value: seq<(string, bool)>)
    requires |value| == 2 || value == []
    ensures value == [] ==> Compress(Decompress(value)) == Some((false, false))
    ensures |value| == 2 ==> Compress(Decompress(value)) == Some((value[0].1, value[1].1))
  {
  }

  /** The initial value of a subscription field. */
  datatype Initial = Initial(subscribe: bool, email: bool)

  /** `SubscriptionField(initial=...)`: the initial of the two check boxes;
      without an initial value both are unchecked. */
  function FieldInitials(initial: Option<Initial>): (r: (bool, bool))
    ensures initial.None? ==> r == (false, false)
    ensures initial.Some? ==> r == (initial.value.subscribe, initial.value.email)
  {
    var i := if initial.Some? then initial.value else Initial(false, false);
    (i.subscribe, i.email)
  }

  /** A subscription row: whether to send email, and to which address. */
  datatype Row = Row(sendEmail: bool, email: string)

  /** The subscriptions: (subscriber, signature slug) to its row. */
  type Rows = map<(nat, string), Row>

  /** The state `save` changes: the subscription rows and the initial value
      of each form field. */
  datatype SaveState = SaveState(rows: Rows, initials: map<string, (bool, bool)>)

  /** `Signature.objects.get(slug=key)` for an unknown slug. */
  datatype SaveError = DoesNotExist

  /** One item of the cleaned data: subscribing sets the row; not
      subscribing deletes an existing row and resets the field's initial. */
  function SaveStep(s: SaveState, subscriber: nat, email: string, signatures: set<string>, item: (string, (bool, bool)))
    : (r: Result<SaveState, SaveError>)
    ensures r.Err? <==> item.0 !in signatures
  {
    if item.0 !in signatures then Err(DoesNotExist)
    else
      var key := (subscriber, item.0);
      if item.1.0 then Ok(SaveState(s.rows[key := Row(item.1.1, email)], s.initials))
      else if key in s.rows then Ok(SaveState(s.rows - {key}, s.initials[item.0 := (false, false)]))
      else Ok(s)
  }

  /** `save()` over the items of the cleaned data, in order. */
  function SaveAll(s: SaveState, subscriber: nat, email: string, signatures: set<string>, data: seq<(string, (bool, bool))>)
    : Result<SaveState, SaveError>
    decreases |data|
  {
    if data == [] then Ok(s)
    else match SaveStep(s, subscriber, email, signatures, data[0])
      case Err(e) => Err(e)
      case Ok(next) => SaveAll(next, subscriber, email, signatures, data[1..])
  }

  /** Rows of other subscribers, and of signatures not in the data, are
      left alone, and so are the initials of those signatures. */
  lemma {:induction false} SaveAllFrame(s: SaveState, subscriber: nat, email: string, signatures: set<string>,
                                        data: seq<(string, (bool, bool))>, key: (nat, string))
    requires SaveAll(s, subscriber, email, signatures, data).Ok?
    requires key.0 != subscriber || forall i :: 0 <= i < |data| ==> data[i].0 != key.1
    ensures var after := SaveAll(s, subscriber, email, signatures, data).value;
            (key in after.rows <==> key in s.rows) && (key in s.rows ==> after.rows[key] == s.rows[key])
    ensures key.0 == subscriber ==> var after := SaveAll(s, subscriber, email, signatures, data).value;
            (key.1 in after.initials <==> key.1 in s.initials) && (key.1 in s.initials ==> after.initials[key.1] == s.initials[key.1])
    decreases |data|
  {
    if data != [] {
      var next := SaveStep(s, subscriber, email, signatures, data[0]).value;
      SaveAllFrame(next, subscriber, email, signatures, data[1..], key);
    }
  }

  /** After `save`, with the cleaned data keyed by distinct slugs, each
      subscribed signature has a row with the email flag and the
      subscriber's address; each unsubscribed one has no row, and its field
      is reset to (False, False) when a row existed and left as it was
      otherwise. */
  lemma {:induction false} SaveEffect(s: SaveState, subscriber: nat, email: string, signatures: set<string>,
                                      data: seq<(string, (bool, bool))>, i: nat)
    requires forall a, b :: 0 <= a < b < |data| ==> data[a].0 != data[b].0
    requires SaveAll(s, subscriber, email, signatures, data).Ok? && i < |data|
    ensures var after := SaveAll(s, subscriber, email, signatures, data).value;
            var key := (subscriber, data[i].0);
            (data[i].1.0 ==> key in after.rows && after.rows[key] == Row(data[i].1.1, email))
            && (!data[i].1.0 ==> key !in after.rows)
            && (!data[i].1.0 && key in s.rows ==> data[i].0 in after.initials && after.initials[data[i].0] == (false, false))
            && (!data[i].1.0 && key !in s.rows ==> (data[i].0 in after.initials <==> data[i].0 in s.initials))
            && (!data[i].1.0 && key !in s.rows && data[i].0 in s.initials ==> after.initials[data[i].0] == s.initials[data[i].0])
    decreases |data|
  {
    var next := SaveStep(s, subscriber, email, signatures, data[0]).value;
    var rest := data[1..];
    if i == 0 {
      SaveAllFrame(next, subscriber, email, signatures, rest, (subscriber, data[0].0));
    } else {
      assert rest[i - 1] == data[i];
      assert next.rows == s.rows[(subscriber, data[0].0) := Row(data[0].1.1, email)]
          || next.rows == s.rows - {(subscriber, data[0].0)} || next.rows == s.rows;
      assert (subscriber, data[i].0) in next.rows <==> (subscriber, data[i].0) in s.rows;
      assert data[i].0 in next.initials <==> data[i].0 in s.initials;
      assert data[i].0 in s.initials ==> next.initials[data[i].0] == s.initials[data[i].0];
      SaveEffect(next, subscriber, email, signatures, rest, i - 1);
    }
  }

  /** The subscription table. */
  class Subscriptions {
    var rows: Rows

    constructor (rows: Rows)
      ensures this.rows == rows
    {
      this.rows := rows;
    }
  }

  /** `SubscriptionsForm` for one subscriber, with the initial value of each
      field. */
  class SubscriptionsForm {
    const subscriber: nat
    const subscriberEmail: string
    var initials: map<string, (bool, bool)>

    constructor (subscriber: nat, subscriberEmail: string, initials: map<string, (bool, bool)>)
      ensures this.subscriber == subscriber && this.subscriberEmail == subscriberEmail && this.initials == initials
    {
      this.subscriber := subscriber;
      this.subscriberEmail := subscriberEmail;
      this.initials := initials;
    }

    /** `save()` */
    method Save(db: Subscriptions, signatures: set<string>, data: seq<(string, (bool, bool))>) returns (r: Outcome<SaveError>)
      modifies this, db
      ensures var spec := SaveAll(SaveState(old(db.rows), old(initials)), subscriber, subscriberEmail, signatures, data);
              (r.Pass? <==> spec.Ok?) && (spec.Ok? ==> db.rows == spec.value.rows && initials == spec.value.initials)
    {
      var i := 0;
      while i < |data|
        invariant 0 <= i <= |data|
        invariant SaveAll(SaveState(old(db.rows), old(initials)), subscriber, subscriberEmail, signatures, data)
                  == SaveAll(SaveState(db.rows, initials), subscriber, subscriberEmail, signatures, data[i..])
      {
        assert data[i..][1..] == data[i + 1..];
        var (key, (subscribe, email)) := data[i];
        if key !in signatures {
          return Fail(DoesNotExist);
        }
        var isSubscriber := (subscriber, key) in db.rows;
        if subscribe {
          db.rows := db.rows[(subscriber, key) := Row(email, subscriberEmail)];
        } else if isSubscriber {
          db.rows := db.rows - {(subscriber, key)};
          initials := initials[key := (false, false)];
        }
        i := i + 1;
      }
      r := Pass;
    }
  }
}
