/**
 * The authentication hook: the session, the user, the admin flag and the loading
 * flag, driven by the initial session, by auth events and by the admin lookup.
 */
module UseAuth {

  import opened Types
  import opened Backend
  import Seqs

  /** A signed-in session; the backend always attaches its user. */
  datatype Session = Session(user: Identity)

  /** `session?.user ?? null`. */
  function SessionUser(session: Option<Session>): (r: Option<Identity>)
    ensures r.Some? <==> session.Some?
    ensures r.Some? ==> r.value == session.value.user
  {
    if session.Some? then Some(session.value.user) else None
  }

  /** The outcome of `.maybeSingle()`: no row, the one row, or an error for several. */
  datatype MaybeSingle<T> = NoRow | OneRow(row: T) | SeveralRows

  function MaybeSingleOf<T>(rows: seq<T>): (r: MaybeSingle<T>)
    ensures r == NoRow <==> rows == []
    ensures r.OneRow? <==> |rows| == 1
    ensures r.OneRow? ==> r.row == rows[0]
    ensures r == SeveralRows <==> |rows| > 1
  {
    if rows == [] then NoRow else if |rows| == 1 then OneRow(rows[0]) else SeveralRows
  }

  /** The `admins` rows for a user. */
  function AdminRowsFor(admins: seq<AdminRow>, userId: string): seq<AdminRow>
  {
    Seqs.Filter(admins, (a: AdminRow) => a.userId == userId)
  }

  /**
   * The flag `checkAdmin` sets: false on an error (a failed request, or several
   * admin rows, which `maybeSingle` reports as an error), otherwise whether a row came back.
   */
  function AdminFlag(admins: seq<AdminRow>, userId: string, lookupFails: bool): (r: bool)
    ensures r <==> !lookupFails && |AdminRowsFor(admins, userId)| == 1
  {
    if lookupFails then false
    else
      match MaybeSingleOf(AdminRowsFor(admins, userId))
      case NoRow => false
      case OneRow(_) => true
      case SeveralRows => false
  }

  /** A user with no admins row is never flagged; a user with exactly one is, unless the request fails. */
  lemma AdminFlagMeansAdminRow(admins: seq<AdminRow>, userId: string, lookupFails: bool)
    ensures AdminFlag(admins, userId, lookupFails) ==> exists i :: 0 <= i < |admins| && admins[i].userId == userId
    ensures (forall i :: 0 <= i < |admins| ==> admins[i].userId != userId) ==> !AdminFlag(admins, userId, lookupFails)
  {
    var rows := AdminRowsFor(admins, userId);
    if AdminFlag(admins, userId, lookupFails) {
      assert rows[0] in admins;
    }
    if forall i :: 0 <= i < |admins| ==> admins[i].userId != userId {
      Seqs.FilterDropsAll(admins, (a: AdminRow) => a.userId == userId);
    }
  }

  class AuthState {
    const store: Store
    var user: Option<Identity>
    var session: Option<Session>
    var isAdmin: bool
    var loading: bool

    /** The hook's initial state. */
    constructor (store: Store)
      ensures this.store == store
      ensures user == None && session == None && !isAdmin && loading
    {
      this.store := store;
      user, session := None, None;
      isAdmin, loading := false, true;
    }

    /**
     * The `getSession()` callback.  The admin lookup it starts for a signed-in user
     * completes later, as a separate `CheckAdmin` step, so the flag is untouched here.
     */
    method OnInitialSession(s: Option<Session>)
      modifies this`session, this`user, this`loading
      ensures session == s && user == SessionUser(s) && !loading
    {
      session := s;
      user := SessionUser(s);
      loading := false;
    }

    /**
     * The `onAuthStateChange` handler: without a session user the flag is cleared;
     * with one the admin lookup starts (a later `CheckAdmin` step), so the event
     * itself never raises the flag.
     */
    method OnAuthStateChange(s: Option<Session>)
      modifies this`session, this`user, this`isAdmin, this`loading
      ensures session == s && user == SessionUser(s) && !loading
      ensures s.None? ==> !isAdmin
      ensures s.Some? ==> isAdmin == old(isAdmin)
      ensures isAdmin ==> old(isAdmin)
    {
      session := s;
      user := SessionUser(s);
      if s.None? {
        isAdmin := false;
      }
      loading := false;
    }

    /** `checkAdmin(userId)` completing. */
    method CheckAdmin(userId: string, lookupFails: bool)
      modifies this`isAdmin
      ensures isAdmin == AdminFlag(store.admins, userId, lookupFails)
    {
      if lookupFails {
        isAdmin := false;
      } else {
        var found := MaybeSingleOf(AdminRowsFor(store.admins, userId));
        isAdmin := found.OneRow?;
      }
    }
  }
}
