/** The authentication context (src/context/AuthContext.tsx): the session's user and
    profile, registration, profile updates and account deletion. */
module Auth {
  import opened Wrappers
  import opened Types
  import opened Backend

  /** What the profile listener receives for `users/{uid}`. */
  datatype ProfileSnapshot = DocMissing | DocExists(data: ProfileDoc) | SnapshotFailed

  /** The outcome of an asynchronous action: it resolves, or it rejects with a message. */
  datatype Outcome = Done | Rejected(message: string)

  const SignInToUpdate := "You must be signed in to update your profile."

  /** The profile the listener publishes for `user`: none when the document is missing or
      the listener fails, else the document's fields with the user's as fallbacks. */
  function ProfileFrom(user: User, snap: ProfileSnapshot): (p: Option<UserProfile>)
    ensures p.Some? <==> snap.DocExists?
  {
    match snap
    case DocExists(data) =>
      Some(UserProfile(data.uid.GetOr(user.uid), data.email.GetOr(user.email.GetOr("")),
                       data.name.GetOr(""), data.address.GetOr(""), data.createdAt, data.updatedAt))
    case _ => None
  }

  /** A profile document with no fields gives the user's id and email (or "") and
      empty name and address. */
  lemma ProfileDefaults(user: User)
    ensures ProfileFrom(user, DocExists(ProfileDoc(None, None, None, None, None, None)))
         == Some(UserProfile(user.uid, user.email.GetOr(""), "", "", None, None))
  {
  }

  /** The fields a profile document has win over the user's own. */
  lemma ProfileKeepsPresent(user: User, uid: string, email: string, name: string, address: string,
                            createdAt: int, updatedAt: int)
    ensures ProfileFrom(user, DocExists(ProfileDoc(Some(uid), Some(email), Some(name), Some(address),
                                                   Some(createdAt), Some(updatedAt))))
         == Some(UserProfile(uid, email, name, address, Some(createdAt), Some(updatedAt)))
  {
  }

  /** The document `register` writes for the new `account`; `now` is the server timestamp. */
  function RegisterDoc(account: User, email: string, name: string, address: string, now: int): ProfileDoc {
    ProfileDoc(Some(account.uid), Some(account.email.GetOr(email)), Some(name), Some(address), Some(now), Some(now))
  }

  /** The document `updateProfile` writes for `user`, whose current profile is `profile`. */
  function UpdateDoc(user: User, profile: Option<UserProfile>, name: string, address: string, now: int): ProfileDoc {
    var createdAt := if profile.Some? && profile.value.createdAt.Some? then profile.value.createdAt else Some(now);
    ProfileDoc(Some(user.uid), Some(user.email.GetOr("")), Some(name), Some(address), createdAt, Some(now))
  }

  /** A registered account's document reads back as the profile given at registration. */
  lemma RegisteredProfile(account: User, email: string, name: string, address: string, now: int)
    ensures ProfileFrom(account, DocExists(RegisterDoc(account, email, name, address, now)))
            == Some(UserProfile(account.uid, account.email.GetOr(email), name, address, Some(now), Some(now)))
  {
  }

  /** Updating a profile read from `doc` keeps its creation time when it has one, otherwise
      stamps it with the update time, and the profile read back carries the new name and address. */
  lemma UpdateKeepsCreation(user: User, doc: ProfileDoc, name: string, address: string, now: int)
    ensures var written := UpdateDoc(user, ProfileFrom(user, DocExists(doc)), name, address, now);
      && written.createdAt == (if doc.createdAt.Some? then doc.createdAt else Some(now))
      && written.updatedAt == Some(now)
      && var back := ProfileFrom(user, DocExists(written)).value;
         back.uid == user.uid && back.name == name && back.address == address
         && back.createdAt == written.createdAt
  {
  }

  /** `register`: the identity service creates the account `account` (or rejects with
      `failure`), then its profile document is written. */
  method Register(store: DocumentStore, email: string, name: string, address: string,
                  account: User, created: bool, profileWriteOk: bool, now: int, failure: string)
    returns (outcome: Outcome)
    requires account.uid !in store.principals
    modifies store
    ensures outcome.Done? <==> created && profileWriteOk
    ensures outcome.Rejected? ==> outcome.message == failure
    ensures store.principals == if created then old(store.principals) + {account.uid} else old(store.principals)
    ensures store.users == if created && profileWriteOk
                           then old(store.users)[account.uid := RegisterDoc(account, email, name, address, now)]
                           else old(store.users)
    ensures store.log == old(store.log) + (if created then [PrincipalCreated(account.uid)] else [])
                         + (if created && profileWriteOk then [ProfileWritten(account.uid)] else [])
    ensures store.products == old(store.products) && store.orders == old(store.orders)
  {
    var ok := store.CreatePrincipal(account.uid, created);
    if !ok {
      return Rejected(failure);
    }
    ok := store.SetProfile(account.uid, RegisterDoc(account, email, name, address, now), profileWriteOk);
    outcome := if ok then Done else Rejected(failure);
  }

  /** The order deletions that take effect when the deletions of `ids` are issued and those
      of the ids in `failing` fail, in issue order. */
  function OrderDeletions(ids: seq<string>, failing: set<string>): seq<StoreOp> {
    if |ids| == 0 then []
    else OrderDeletions(ids[..|ids| - 1], failing)
         + (if ids[|ids| - 1] in failing then [] else [OrderDeleted(ids[|ids| - 1])])
  }

  /** An order is recorded as deleted exactly when its deletion was issued and did not fail. */
  lemma {:induction false} OrderDeletionsMembers(ids: seq<string>, failing: set<string>)
    ensures forall op :: op in OrderDeletions(ids, failing) <==> op.OrderDeleted? && op.id in ids && op.id !in failing
  {
    if |ids| > 0 {
      var init, last := ids[..|ids| - 1], ids[|ids| - 1];
      OrderDeletionsMembers(init, failing);
      assert ids == init + [last];
      assert forall id :: id in ids <==> id in init || id == last;
    }
  }

  /** Whether none of `ids` is in `failing`. */
  predicate NoneFailing(ids: seq<string>, failing: set<string>) {
    forall i :: 0 <= i < |ids| ==> ids[i] !in failing
  }

  /** The order step of `deleteAccount` for `uid`: one deletion issued per order the query
      matched, those of the ids in `failing` failing. Returns the issued ids and whether one failed. */
  method DeleteOrdersOf(store: DocumentStore, uid: string, failing: set<string>)
    returns (issued: seq<string>, anyFailed: bool)
    modifies store
    ensures forall id :: id in issued <==> id in OwnedOrders(old(store.orders), uid)
    ensures |issued| == |OwnedOrders(old(store.orders), uid)|
    ensures anyFailed <==> !NoneFailing(issued, failing)
    ensures store.orders == old(store.orders) - (OwnedOrders(old(store.orders), uid) - failing)
    ensures store.log == old(store.log) + OrderDeletions(issued, failing)
    ensures store.products == old(store.products) && store.users == old(store.users)
    ensures store.principals == old(store.principals)
  {
    var owned := OwnedOrders(store.orders, uid);
    var remaining := owned;
    ghost var done: set<string> := {};
    anyFailed := false;
    issued := [];
    while remaining != {}
      invariant owned == remaining + done && remaining !! done
      invariant forall id :: id in issued <==> id in done
      invariant |issued| == |done|
      invariant store.orders == old(store.orders) - (done - failing)
      invariant store.log == old(store.log) + OrderDeletions(issued, failing)
      invariant anyFailed <==> !NoneFailing(issued, failing)
      invariant store.products == old(store.products) && store.users == old(store.users)
      invariant store.principals == old(store.principals)
      decreases remaining
    {
      var id :| id in remaining;
      ghost var before, logBefore := store.orders, store.log;
      var ok := store.DeleteOrder(id, id !in failing);
      IssueStep(issued, id, failing);
      ghost var step := if id in failing then [] else [OrderDeleted(id)];
      assert store.log == logBefore + step;
      AppendAssoc(old(store.log), OrderDeletions(issued, failing), step);
      DeletionStep(old(store.orders), before, done, failing, id);
      SplitStep(owned, remaining, done, issued, id);
      issued := issued + [id];
      remaining := remaining - {id};
      done := done + {id};
      if !ok {
        anyFailed := true;
      }
    }
  }

  /** Issuing one more deletion extends the recorded deletions by that order unless it fails. */
  lemma IssueStep(issued: seq<string>, id: string, failing: set<string>)
    ensures OrderDeletions(issued + [id], failing)
            == OrderDeletions(issued, failing) + (if id in failing then [] else [OrderDeleted(id)])
    ensures NoneFailing(issued + [id], failing) <==> NoneFailing(issued, failing) && id !in failing
  {
    var next := issued + [id];
    assert next[..|next| - 1] == issued;
    assert forall i :: 0 <= i < |issued| ==> next[i] == issued[i];
    assert next[|issued|] == id;
  }

  /** Moving `id` from the ids still to delete to those done keeps the split of the owned
      orders and keeps `issued` listing exactly the ids done, once each. */
  lemma SplitStep(owned: set<string>, remaining: set<string>, done: set<string>,
                  issued: seq<string>, id: string)
    requires owned == remaining + done && remaining !! done && id in remaining
    requires forall x :: x in issued <==> x in done
    requires |issued| == |done|
    ensures owned == (remaining - {id}) + (done + {id}) && (remaining - {id}) !! (done + {id})
    ensures forall x :: x in issued + [id] <==> x in done + {id}
    ensures |issued + [id]| == |done + {id}|
  {
  }

  lemma AppendAssoc(a: seq<StoreOp>, b: seq<StoreOp>, c: seq<StoreOp>)
    ensures (a + b) + c == a + (b + c)
  {
  }

  /** One deletion step of `DeleteOrdersOf`: the orders left are the original ones less the
      deleted ids, before and after deleting `id`. */
  lemma DeletionStep(orders0: map<string, OrderDoc>, orders: map<string, OrderDoc>,
                     done: set<string>, failing: set<string>, id: string)
    requires orders == orders0 - (done - failing) && id !in done
    ensures (if id in failing then orders else orders - {id}) == orders0 - ((done + {id}) - failing)
  {
  }

  class AuthSession {
    var user: Option<User>
    var profile: Option<UserProfile>
    var loading: bool
    /** The user whose profile document the live listener watches, if any. */
    var watching: Option<User>

    constructor ()
      ensures user == None && profile == None && loading && watching == None
    {
      user, profile, loading, watching := None, None, true, None;
    }

    /** The auth listener reports `next`; the profile effect then resubscribes for it. */
    method OnAuthStateChanged(next: Option<User>)
      modifies this
      ensures user == next && !loading && watching == next
      ensures next.None? ==> profile == None
      ensures next.Some? ==> profile == old(profile)
    {
      user := next;
      loading := false;
      watching := next;
      if next.None? {
        profile := None;
      }
    }

    /** The live profile listener delivers `snap`; without a listener nothing happens. */
    method OnProfileSnapshot(snap: ProfileSnapshot)
      modifies this
      ensures user == old(user) && loading == old(loading) && watching == old(watching)
      ensures watching.Some? ==> profile == ProfileFrom(watching.value, snap)
      ensures watching.None? ==> profile == old(profile)
    {
      if watching.Some? {
        profile := ProfileFrom(watching.value, snap);
      }
    }

    /** `updateProfile`: merges the new name and address into the signed-in user's document;
        the write succeeds exactly when `writeOk`, else rejects with `failure`. */
    method UpdateProfile(store: DocumentStore, name: string, address: string, writeOk: bool,
                         now: int, failure: string)
      returns (outcome: Outcome)
      modifies store
      ensures user.None? ==> outcome == Rejected(SignInToUpdate)
      ensures user.Some? ==> outcome == if writeOk then Done else Rejected(failure)
      ensures store.users == if user.Some? && writeOk
                             then old(store.users)[user.value.uid := UpdateDoc(user.value, profile, name, address, now)]
                             else old(store.users)
      ensures store.log == if user.Some? && writeOk then old(store.log) + [ProfileWritten(user.value.uid)]
                           else old(store.log)
      ensures store.products == old(store.products) && store.orders == old(store.orders)
      ensures store.principals == old(store.principals)
    {
      if user.None? {
        return Rejected(SignInToUpdate);
      }
      var ok := store.SetProfile(user.value.uid, UpdateDoc(user.value, profile, name, address, now), writeOk);
      outcome := if ok then Done else Rejected(failure);
    }

    /** `deleteAccount`: the query for the user's orders succeeds when `queryOk`; every
        matched order's deletion is issued and those in `failing` fail; only when all
        succeed are the profile document and then the account deleted. Returns the issued
        order ids and the outcome, rejecting with `failure`. */
    method DeleteAccount(store: DocumentStore, queryOk: bool, failing: set<string>,
                         profileOk: bool, principalOk: bool, failure: string)
      returns (issued: seq<string>, outcome: Outcome)
      modifies store
      ensures store.products == old(store.products)
      ensures user.None? || !queryOk ==>
                && issued == [] && store.orders == old(store.orders) && store.users == old(store.users)
                && store.principals == old(store.principals) && store.log == old(store.log)
      ensures user.None? ==> outcome == Done
      ensures user.Some? && !queryOk ==> outcome == Rejected(failure)
      ensures user.Some? && queryOk ==>
                var uid := user.value.uid;
                var owned := OwnedOrders(old(store.orders), uid);
                var ordersOk := NoneFailing(issued, failing);
                && (forall id :: id in issued <==> id in owned)
                && |issued| == |owned|
                && store.orders == old(store.orders) - (owned - failing)
                && store.users == (if ordersOk && profileOk then old(store.users) - {uid} else old(store.users))
                && store.principals == (if ordersOk && profileOk && principalOk then old(store.principals) - {uid}
                                        else old(store.principals))
                && store.log == old(store.log) + OrderDeletions(issued, failing)
                                + (if ordersOk && profileOk then [ProfileDeleted(uid)] else [])
                                + (if ordersOk && profileOk && principalOk then [PrincipalDeleted(uid)] else [])
                && outcome == (if ordersOk && profileOk && principalOk then Done else Rejected(failure))
      ensures user.Some? && queryOk && outcome.Done? ==>
                var uid := user.value.uid;
                OwnedOrders(store.orders, uid) == {} && uid !in store.users && uid !in store.principals
    {
      if user.None? {
        return [], Done;
      }
      if !queryOk {
        return [], Rejected(failure);
      }
      var uid := user.value.uid;
      var anyFailed;
      issued, anyFailed := DeleteOrdersOf(store, uid, failing);
      if anyFailed {
        return issued, Rejected(failure);
      }
      var ok := store.DeleteProfile(uid, profileOk);
      if !ok {
        return issued, Rejected(failure);
      }
      ok := store.DeletePrincipal(uid, principalOk);
      outcome := if ok then Done else Rejected(failure);
    }
  }
}
