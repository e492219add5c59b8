/**
 * The listing grid of the Explore page (src/components/ui/Explore/LsitingSection.tsx):
 * the bookmark toggle with its optimistic update, rollback and cleanup,
 * the initial load of the user's saved listings, the five-star rating row
 * with its hover map, and the results summary count.
 *
 * The remote store is an oracle: the signed-in user (or its absence, or a
 * rejected lookup) and the success of each insert or delete are
 * parameters. Toasts are recorded as notices and issued remote writes in a
 * call log; `store` is the saved_listings table as the server holds it,
 * as (user id, listing id) pairs.
 */
module ListingSection {
  import opened Common

  /** The toasts the section raises. */
  datatype Notice =
    | AuthRequired      // "Authentication required"
    | ListingSaved      // "Listing saved"
    | ListingUnsaved    // "Listing unsaved"
    | OperationFailed   // "Operation failed"
    | LoadSavedFailed   // "Error loading saved listings"

  /** A write sent to the saved_listings table. */
  datatype RemoteOp =
    | InsertSaved(userId: string, listingId: string)
    | DeleteSaved(userId: string, listingId: string)

  /** What `auth.getUser()` gives: a user, no user, or a rejected promise. */
  datatype AuthOutcome = SignedIn(userId: string) | SignedOut | AuthRejected

  /** The bookmark state of the section together with what it sent and what the server holds. */
  datatype SaveState = SaveState(
    saved: set<string>,
    inProgress: set<string>,
    notices: seq<Notice>,
    remote: seq<RemoteOp>,
    store: set<(string, string)>)

  /**
   * The summary shows totalCount whenever it is supplied (0 included, the
   * test being `!== undefined`), else the number of listings shown.
   */
  function ResultsCount<T>(totalCount: Option<int>, shown: seq<T>): (r: int)
    ensures totalCount.Some? ==> r == totalCount.value
    ensures totalCount.None? ==> r == |shown|
  {
    if totalCount.Some? then totalCount.value else |shown|
  }

  // ------------------------------------------------------ bookmark toggle

  /** Membership of `id` flipped: removed when present, added when absent. */
  function Flip(ids: set<string>, id: string): (r: set<string>)
    ensures id in r <==> id !in ids
    ensures r - {id} == ids - {id}
  {
    if id in ids then ids - {id} else ids + {id}
  }

  /** Delete the saved row when the listing was saved, insert one otherwise. */
  function RemoteOpFor(wasSaved: bool, userId: string, listingId: string): (r: RemoteOp)
    ensures r.userId == userId && r.listingId == listingId
    ensures r.DeleteSaved? <==> wasSaved
  {
    if wasSaved then DeleteSaved(userId, listingId) else InsertSaved(userId, listingId)
  }

  /** What a successful write does to the server's table. */
  function Perform(store: set<(string, string)>, op: RemoteOp): (r: set<(string, string)>)
    ensures op.InsertSaved? ==> (op.userId, op.listingId) in r
    ensures op.DeleteSaved? ==> (op.userId, op.listingId) !in r
    ensures r - {(op.userId, op.listingId)} == store - {(op.userId, op.listingId)}
  {
    match op
    case InsertSaved(u, id) => store + {(u, id)}
    case DeleteSaved(u, id) => store - {(u, id)}
  }

  /**
   * The state at the moment the remote write is sent: the id is pending,
   * its saved membership is flipped and the saved/unsaved toast is shown.
   */
  function Optimistic(s: SaveState, id: string): (r: SaveState)
    ensures id in r.inProgress && r.inProgress - {id} == s.inProgress - {id}
    ensures (id in r.saved) <==> (id !in s.saved)
    ensures r.saved - {id} == s.saved - {id}
    ensures r.notices == s.notices + [if id in s.saved then ListingUnsaved else ListingSaved]
    ensures r.remote == s.remote && r.store == s.store
  {
    var wasSaved := id in s.saved;
    s.(inProgress := s.inProgress + {id},
       saved := Flip(s.saved, id),
       notices := s.notices + [if wasSaved then ListingUnsaved else ListingSaved])
  }

  /** The catch block: toggle the membership back and show "Operation failed". */
  function Catch(s: SaveState, id: string): (r: SaveState)
    ensures (id in r.saved) <==> (id !in s.saved)
    ensures r.saved - {id} == s.saved - {id}
    ensures r.notices == s.notices + [OperationFailed]
    ensures r.inProgress == s.inProgress && r.remote == s.remote && r.store == s.store
  {
    s.(saved := Flip(s.saved, id), notices := s.notices + [OperationFailed])
  }

  /** The finally block: the id is no longer pending, and nothing else changes. */
  function Finally(s: SaveState, id: string): (r: SaveState)
    ensures id !in r.inProgress && r.inProgress + {id} == s.inProgress + {id}
    ensures r.(inProgress := s.inProgress) == s
  {
    s.(inProgress := s.inProgress - {id})
  }

  /**
   * The write is sent and logged; on success the server applies it, on
   * failure the catch runs; either way the finally block ends it.
   */
  function Settle(s: SaveState, id: string, userId: string, wasSaved: bool, remoteOk: bool): (r: SaveState)
    ensures id !in r.inProgress && r.inProgress + {id} == s.inProgress + {id}
    ensures r.remote == s.remote + [RemoteOpFor(wasSaved, userId, id)]
    ensures remoteOk ==>
      r.saved == s.saved && r.notices == s.notices && r.store == Perform(s.store, RemoteOpFor(wasSaved, userId, id))
    ensures !remoteOk ==>
      r.saved == Flip(s.saved, id) && r.notices == s.notices + [OperationFailed] && r.store == s.store
  {
    var op := RemoteOpFor(wasSaved, userId, id);
    var sent := s.(remote := s.remote + [op]);
    Finally(if remoteOk then sent.(store := Perform(sent.store, op)) else Catch(sent, id), id)
  }

  /**
   * toggleSaveListing, with a rejected user lookup only notifying (see
   * ToggleAsWritten for the code as written). A pending id is a no-op; with
   * no user only the sign-in toast is shown; otherwise the membership ends
   * flipped on success and unchanged on failure, exactly one write is sent,
   * the id is not left pending and no other id changes.
   */
  function Toggle(s: SaveState, id: string, auth: AuthOutcome, remoteOk: bool): (r: SaveState)
    ensures id in s.inProgress ==> r == s
    ensures r.inProgress == s.inProgress
    ensures r.saved - {id} == s.saved - {id}
    ensures (id in r.saved) <==>
      (if id !in s.inProgress && auth.SignedIn? && remoteOk then id !in s.saved else id in s.saved)
    ensures id !in s.inProgress && auth.SignedOut? ==>
      r.notices == s.notices + [AuthRequired] && r.remote == s.remote && r.store == s.store
    ensures id !in s.inProgress && auth.AuthRejected? ==>
      r.notices == s.notices + [OperationFailed] && r.remote == s.remote && r.store == s.store
    ensures id !in s.inProgress && auth.SignedIn? ==>
      r.remote == s.remote + [if id in s.saved then DeleteSaved(auth.userId, id) else InsertSaved(auth.userId, id)]
    ensures id !in s.inProgress && auth.SignedIn? && remoteOk ==>
      r.store == Perform(s.store, RemoteOpFor(id in s.saved, auth.userId, id)) &&
      r.notices == s.notices + [if id in s.saved then ListingUnsaved else ListingSaved]
    ensures id !in s.inProgress && auth.SignedIn? && !remoteOk ==>
      r.notices == s.notices + [if id in s.saved then ListingUnsaved else ListingSaved, OperationFailed] &&
      r.store == s.store
  {
    if id in s.inProgress then s
    else
      match auth
      case SignedOut => Finally(s.(notices := s.notices + [AuthRequired]), id)
      case AuthRejected => Finally(s.(notices := s.notices + [OperationFailed]), id)
      case SignedIn(u) => Settle(Optimistic(s, id), id, u, id in s.saved, remoteOk)
  }

  /**
   * toggleSaveListing as written: when `auth.getUser()` rejects, control
   * reaches the catch block before any optimistic update, and the catch
   * block flips the membership all the same.
   */
  function ToggleAsWritten(s: SaveState, id: string, auth: AuthOutcome, remoteOk: bool): (r: SaveState)
    ensures !auth.AuthRejected? ==> r == Toggle(s, id, auth, remoteOk)
    ensures id !in s.inProgress && auth.AuthRejected? ==>
      (id in r.saved <==> id !in s.saved) && r.remote == s.remote && r.store == s.store
  {
    if id !in s.inProgress && auth.AuthRejected? then Finally(Catch(s, id), id)
    else Toggle(s, id, auth, remoteOk)
  }

  /** The catch block undoes the optimistic flip: the saved set is back as it was. */
  lemma CatchRevertsOptimistic(s: SaveState, id: string)
    ensures Catch(Optimistic(s, id), id).saved == s.saved
    ensures Catch(Optimistic(s, id), id).notices ==
      s.notices + [if id in s.saved then ListingUnsaved else ListingSaved, OperationFailed]
  {
    var r := Catch(Optimistic(s, id), id);
    assert r.saved - {id} == s.saved - {id};
    assert forall x :: x in r.saved <==> x in s.saved;
  }

  /** The local saved set agrees with the server's rows for user u. */
  ghost predicate InSync(s: SaveState, u: string)
  {
    forall id :: id in s.saved <==> (u, id) in s.store
  }

  /** A toggle by the signed-in user keeps the local set in agreement with the server. */
  lemma ToggleKeepsInSync(s: SaveState, id: string, auth: AuthOutcome, remoteOk: bool, u: string)
    requires InSync(s, u)
    requires auth.SignedIn? ==> auth.userId == u
    ensures InSync(Toggle(s, id, auth, remoteOk), u)
  {
    var r := Toggle(s, id, auth, remoteOk);
    if id !in s.inProgress && auth.SignedIn? {
      var op := RemoteOpFor(id in s.saved, u, id);
      forall x
        ensures x in r.saved <==> (u, x) in r.store
      {
        if x != id {
          assert x in r.saved <==> x in s.saved;
          assert (u, x) in r.store <==> (u, x) in s.store;
        }
      }
    }
  }

  /** As written, a rejected user lookup leaves the local set disagreeing with the server. */
  lemma AsWrittenRejectedLookupLosesSync(u: string, id: string)
    ensures var s := SaveState({}, {}, [], [], {});
      InSync(s, u) && !InSync(ToggleAsWritten(s, id, AuthRejected, true), u)
  {
    var s := SaveState({}, {}, [], [], {});
    var r := ToggleAsWritten(s, id, AuthRejected, true);
    assert id in r.saved && (u, id) !in r.store;
  }

  /** Saving then unsaving, both writes succeeding: back where it started, one insert then one delete. */
  lemma ToggleTwiceRoundTrip(s: SaveState, id: string, u: string)
    requires id !in s.saved && id !in s.inProgress
    ensures var t := Toggle(Toggle(s, id, SignedIn(u), true), id, SignedIn(u), true);
      t.saved == s.saved && t.inProgress == s.inProgress &&
      t.remote == s.remote + [InsertSaved(u, id), DeleteSaved(u, id)]
  {
    var once := Toggle(s, id, SignedIn(u), true);
    assert id in once.saved && id !in once.inProgress;
    var twice := Toggle(once, id, SignedIn(u), true);
    assert twice.saved - {id} == s.saved - {id} && id !in twice.saved;
  }

  // --------------------------------------------------------- initial load

  /** `new Set(data.map(item => item.listing_id))`. */
  function IdSet(rows: seq<string>): (r: set<string>)
    ensures forall id :: id in r <==> id in rows
  {
    set id | id in rows
  }

  /**
   * fetchSavedListings: a signed-in user's fetched ids replace the saved
   * set; no user leaves everything unchanged; a failed fetch or a rejected
   * lookup leaves the set and shows an error toast.
   */
  function LoadSaved(s: SaveState, auth: AuthOutcome, rows: Fetch<seq<string>>): (r: SaveState)
    ensures auth.SignedIn? && rows.Fetched? ==> r == s.(saved := IdSet(rows.value))
    ensures auth.SignedOut? ==> r == s
    ensures auth.AuthRejected? || (auth.SignedIn? && rows.FetchError?) ==>
      r == s.(notices := s.notices + [LoadSavedFailed])
  {
    match auth
    case SignedOut => s
    case AuthRejected => s.(notices := s.notices + [LoadSavedFailed])
    case SignedIn(_) =>
      match rows
      case FetchError => s.(notices := s.notices + [LoadSavedFailed])
      case Fetched(ids) => s.(saved := IdSet(ids))
  }

  /** Loading the rows the server holds for the user puts the local set in agreement with it. */
  lemma LoadSavedSyncs(s: SaveState, u: string, ids: seq<string>)
    requires forall id :: id in ids <==> (u, id) in s.store
    ensures InSync(LoadSaved(s, SignedIn(u), Fetched(ids)), u)
  {
  }

  // ------------------------------------------------------------ star row

  /** `hoveredRatings[listing.id]`: undefined when the listing is not hovered. */
  function HoveredFor(hovered: map<string, int>, listingId: string): Option<int>
  {
    if listingId in hovered then Some(hovered[listingId]) else None
  }

  /**
   * The value the stars are compared with: a truthy hovered value, else
   * `rating || 0`; a hovered 0 is falsy and counts as no hover.
   */
  function StarThreshold(hovered: Option<int>, rating: Option<int>): (r: int)
    ensures hovered.Some? && hovered.value != 0 ==> r == hovered.value
    ensures hovered.None? || hovered == Some(0) ==> r == OrZero(rating)
  {
    if hovered.Some? && hovered.value != 0 then hovered.value else OrZero(rating)
  }

  /** The isFilled expression for the star worth `starValue`: it is at most the threshold. */
  function IsFilled(starValue: int, hovered: Option<int>, rating: Option<int>): (r: bool)
    ensures r <==> starValue <= StarThreshold(hovered, rating)
  {
    if hovered.Some? && hovered.value != 0 then starValue <= hovered.value
    else starValue <= OrZero(rating)
  }

  /**
   * renderStars: five stars worth 1 to 5; star i + 1 is filled exactly when
   * it does not exceed the threshold, so the filled stars form a prefix.
   */
  function RenderStars(hovered: map<string, int>, listingId: string, rating: Option<int>): (r: seq<bool>)
    ensures |r| == 5
    ensures forall i :: 0 <= i < 5 ==>
      (r[i] <==> i + 1 <= StarThreshold(HoveredFor(hovered, listingId), rating))
    ensures forall i, j :: 0 <= i <= j < 5 && r[j] ==> r[i]
  {
    seq(5, i requires 0 <= i < 5 => IsFilled(i + 1, HoveredFor(hovered, listingId), rating))
  }

  function CountFilled(stars: seq<bool>): nat
  {
    if stars == [] then 0 else (if stars[0] then 1 else 0) + CountFilled(stars[1..])
  }

  /** The number of filled stars is the threshold clamped to 0..5. */
  lemma FilledCount(hovered: map<string, int>, listingId: string, rating: Option<int>)
    ensures var t := StarThreshold(HoveredFor(hovered, listingId), rating);
      CountFilled(RenderStars(hovered, listingId, rating)) ==
        if t < 0 then 0 else if t > 5 then 5 else t
  {
    var r := RenderStars(hovered, listingId, rating);
    assert CountFilled(r) == (if r[0] then 1 else 0) + CountFilled(r[1..]);
    assert r[1..][0] == r[1] && r[1..][1..] == r[2..];
    assert CountFilled(r[1..]) == (if r[1] then 1 else 0) + CountFilled(r[2..]);
    assert r[2..][0] == r[2] && r[2..][1..] == r[3..];
    assert CountFilled(r[2..]) == (if r[2] then 1 else 0) + CountFilled(r[3..]);
    assert r[3..][0] == r[3] && r[3..][1..] == r[4..];
    assert CountFilled(r[3..]) == (if r[3] then 1 else 0) + CountFilled(r[4..]);
    assert r[4..][0] == r[4] && r[4..][1..] == [];
    assert CountFilled(r[4..]) == (if r[4] then 1 else 0);
  }

  /** handleStarHover: the listing's hovered value becomes `rating`; other keys are kept. */
  function WithHover(hovered: map<string, int>, listingId: string, rating: int): (r: map<string, int>)
    ensures r.Keys == hovered.Keys + {listingId} && r[listingId] == rating
    ensures forall k :: k in hovered && k != listingId ==> r[k] == hovered[k]
  {
    hovered[listingId := rating]
  }

  /** handleStarLeave: only the listing's key is deleted. */
  function WithoutHover(hovered: map<string, int>, listingId: string): (r: map<string, int>)
    ensures r.Keys == hovered.Keys - {listingId}
    ensures forall k :: k in r ==> r[k] == hovered[k]
  {
    hovered - {listingId}
  }

  /** Leaving a star undoes hovering it: the listing falls back to its rating. */
  lemma LeaveUndoesHover(hovered: map<string, int>, listingId: string, rating: int)
    requires listingId !in hovered
    ensures WithoutHover(WithHover(hovered, listingId, rating), listingId) == hovered
  {
    var r := WithoutHover(WithHover(hovered, listingId, rating), listingId);
    assert r.Keys == hovered.Keys;
  }

  // --------------------------------------------------------------- state

  /** The section's component state, updated by its handlers. */
  class SectionState {
    var hoveredRatings: map<string, int>
    var savedListings: set<string>
    var savingInProgress: set<string>
    var notices: seq<Notice>
    var remoteCalls: seq<RemoteOp>
    ghost var store: set<(string, string)>

    ghost function Snapshot(): SaveState
      reads this
    {
      SaveState(savedListings, savingInProgress, notices, remoteCalls, store)
    }

    /** A freshly mounted section, in front of a server that holds `rows`. */
    constructor (ghost rows: set<(string, string)>)
      ensures hoveredRatings == map[] && savedListings == {} && savingInProgress == {}
      ensures notices == [] && remoteCalls == [] && store == rows
    {
      hoveredRatings := map[];
      savedListings := {};
      savingInProgress := {};
      notices := [];
      remoteCalls := [];
      store := rows;
    }

    /**
     * toggleSaveListing, step by step, with the corrected handling of a
     * rejected user lookup: only the failure toast is shown and membership
     * is kept (the code as written also flips it, see ToggleAsWritten). The
     * end state is Toggle of the start state.
     */
    method ToggleSaveListing(listingId: string, auth: AuthOutcome, remoteOk: bool)
      modifies this
      ensures Snapshot() == Toggle(old(Snapshot()), listingId, auth, remoteOk)
      ensures hoveredRatings == old(hoveredRatings)
    {
      // Prevent duplicate requests.
      if listingId in savingInProgress {
        return;
      }
      match auth {
        case SignedOut =>
          notices := notices + [AuthRequired];
        case AuthRejected =>
          notices := notices + [OperationFailed];
        case SignedIn(userId) =>
          var isAlreadySaved := listingId in savedListings;
          savingInProgress := savingInProgress + {listingId};
          savedListings := if isAlreadySaved then savedListings - {listingId}
                           else savedListings + {listingId};
          notices := notices + [if isAlreadySaved then ListingUnsaved else ListingSaved];
          assert Snapshot() == Optimistic(old(Snapshot()), listingId);
          var op := if isAlreadySaved then DeleteSaved(userId, listingId)
                    else InsertSaved(userId, listingId);
          remoteCalls := remoteCalls + [op];
          if remoteOk {
            store := Perform(store, op);
          } else {
            // Revert the optimistic update.
            savedListings := if listingId in savedListings then savedListings - {listingId}
                             else savedListings + {listingId};
            notices := notices + [OperationFailed];
          }
      }
      // Clear the pending mark whatever happened.
      savingInProgress := savingInProgress - {listingId};
    }

    /** fetchSavedListings on mount. */
    method FetchSavedListings(auth: AuthOutcome, rows: Fetch<seq<string>>)
      modifies this
      ensures Snapshot() == LoadSaved(old(Snapshot()), auth, rows)
      ensures hoveredRatings == old(hoveredRatings)
    {
      match auth {
        case SignedOut =>
          return;
        case AuthRejected =>
          notices := notices + [LoadSavedFailed];
        case SignedIn(_) =>
          match rows {
            case FetchError =>
              notices := notices + [LoadSavedFailed];
            case Fetched(ids) =>
              savedListings := set id | id in ids;
          }
      }
    }

    method HandleStarHover(listingId: string, rating: int)
      modifies this`hoveredRatings
      ensures hoveredRatings == WithHover(old(hoveredRatings), listingId, rating)
    {
      hoveredRatings := hoveredRatings[listingId := rating];
    }

    method HandleStarLeave(listingId: string)
      modifies this`hoveredRatings
      ensures hoveredRatings == WithoutHover(old(hoveredRatings), listingId)
    {
      hoveredRatings := hoveredRatings - {listingId};
    }
  }
}
