/**
 * The sign-in callback page: it reads the session, creates the user's profile if
 * none is found, and sends the user home or back to the sign-in page.
 */
module AuthCallbackPage {

  import opened Types
  import opened Backend
  import Seqs
  import Text
  import UseAuth

  /** `email.split('@')[0]`: the text before the first '@'. */
  function EmailLocalPart(email: string): string
  {
    Text.Split(email, '@')[0]
  }

  /**
   * The name written to a new profile: metadata `full_name`, else metadata `name`,
   * else the email's local part, else 'User' — each skipped when empty.
   */
  function ProfileName(u: Identity): (r: string)
    ensures r != ""
    ensures Truthy(u.fullName) ==> r == u.fullName.value
    ensures !Truthy(u.fullName) && Truthy(u.metaName) ==> r == u.metaName.value
    ensures !Truthy(u.fullName) && !Truthy(u.metaName) && EmailLocalPart(u.email) != "" ==> r == EmailLocalPart(u.email)
    ensures !Truthy(u.fullName) && !Truthy(u.metaName) && EmailLocalPart(u.email) == "" ==> r == "User"
  {
    if Truthy(u.fullName) then u.fullName.value
    else if Truthy(u.metaName) then u.metaName.value
    else if EmailLocalPart(u.email) != "" then EmailLocalPart(u.email)
    else "User"
  }

  /**
   * Without metadata names the name is 'User' when the email is empty or starts
   * with '@'; otherwise it is the email up to its first '@' (all of it when there
   * is none).
   */
  lemma EmailFallback(u: Identity)
    requires !Truthy(u.fullName) && !Truthy(u.metaName)
    ensures u.email == "" || u.email[0] == '@' ==> ProfileName(u) == "User"
    ensures u.email != "" && u.email[0] != '@' ==>
      && Text.StartsWith(u.email, ProfileName(u))
      && '@' !in ProfileName(u)
      && (ProfileName(u) == u.email || u.email[|ProfileName(u)|] == '@')
  {
    Text.SplitFirstPiece(u.email, '@');
    var local := EmailLocalPart(u.email);
    if u.email != "" && u.email[0] == '@' {
      assert local == "";
    }
    if u.email != "" && u.email[0] != '@' {
      assert local != "";
      if |local| == |u.email| {
        assert u.email[..|local|] == u.email;
      }
    }
  }

  /** `.from('profiles').select('id').eq('id', id).single()`: the row only when exactly one matches. */
  function ExistingProfile(profiles: seq<ProfileRow>, id: string, checkFails: bool): (r: Option<ProfileRow>)
    ensures r.Some? <==> !checkFails && |Seqs.Filter(profiles, (p: ProfileRow) => p.id == id)| == 1
  {
    var rows := Seqs.Filter(profiles, (p: ProfileRow) => p.id == id);
    if !checkFails && |rows| == 1 then Some(rows[0]) else None
  }

  /** The upsert keyed on `id`: an existing row gets the email and name, otherwise a row is added. */
  function UpsertProfile(profiles: seq<ProfileRow>, id: string, email: string, name: string): seq<ProfileRow>
  {
    if exists i :: 0 <= i < |profiles| && profiles[i].id == id then
      Seqs.Map(profiles, (p: ProfileRow) => if p.id == id then p.(email := email, name := Some(name)) else p)
    else profiles + [ProfileRow(id, Some(name), None, None, email, None)]
  }

  /**
   * After the upsert the user has a row with that email and name; other users' rows
   * are unchanged, and an existing row keeps its other fields.
   */
  lemma UpsertProfileProperties(profiles: seq<ProfileRow>, id: string, email: string, name: string)
    ensures exists i :: (0 <= i < |UpsertProfile(profiles, id, email, name)| &&
      UpsertProfile(profiles, id, email, name)[i].id == id &&
      UpsertProfile(profiles, id, email, name)[i].email == email &&
      UpsertProfile(profiles, id, email, name)[i].name == Some(name))
    ensures forall p :: p in profiles && p.id != id ==> p in UpsertProfile(profiles, id, email, name)
    ensures forall p :: p in UpsertProfile(profiles, id, email, name) && p.id != id ==> p in profiles
    ensures forall i :: 0 <= i < |profiles| && profiles[i].id == id ==>
      UpsertProfile(profiles, id, email, name)[i] == profiles[i].(email := email, name := Some(name))
  {
    var r := UpsertProfile(profiles, id, email, name);
    if exists i :: 0 <= i < |profiles| && profiles[i].id == id {
      var i :| 0 <= i < |profiles| && profiles[i].id == id;
      assert r[i].id == id;
      forall p | p in profiles && p.id != id ensures p in r {
        var k :| 0 <= k < |profiles| && profiles[k] == p;
        assert r[k] == p;
      }
      forall p | p in r && p.id != id ensures p in profiles {
        var k :| 0 <= k < |r| && r[k] == p;
        assert r[k] == profiles[k];
      }
    } else {
      assert r[|profiles|].id == id;
      forall p | p in r && p.id != id ensures p in profiles {
        var k :| 0 <= k < |r| && r[k] == p;
        assert k < |profiles|;
      }
    }
  }

  const HomeRoute := "/"
  const WelcomeStatus := "Welcome! Redirecting..."
  const NoSessionStatus := "No session found. Redirecting to login..."
  const FailedStatus := "Authentication failed. Redirecting..."

  class AuthCallback {
    const store: Store
    var status: string

    constructor (store: Store)
      ensures this.store == store && status == "Completing authentication..."
    {
      this.store := store;
      status := "Completing authentication...";
    }

    /**
     * `handleAuthCallback`.  A session error ends at the sign-in page, as does a
     * missing session.  With a session the profile is upserted only when the
     * existence check returns no row (a failed check included), a failed upsert is
     * only logged, and the flow ends at the home page.
     */
    method HandleAuthCallback(s: Option<UseAuth.Session>, sessionFails: bool, checkFails: bool, upsertFails: bool)
      returns (destination: string)
      modifies this`status, store`profiles
      ensures destination == if !sessionFails && s.Some? then HomeRoute else SignInRoute
      ensures status == if sessionFails then FailedStatus else if s.None? then NoSessionStatus else WelcomeStatus
      ensures sessionFails || s.None? ==> store.profiles == old(store.profiles)
      ensures !sessionFails && s.Some? ==>
        var u := s.value.user;
        store.profiles ==
          if ExistingProfile(old(store.profiles), u.id, checkFails).Some? || upsertFails then old(store.profiles)
          else UpsertProfile(old(store.profiles), u.id, u.email, ProfileName(u))
    {
      status := "Getting session...";
      if sessionFails {
        status := FailedStatus;
        return SignInRoute;
      }
      if s.None? {
        status := NoSessionStatus;
        return SignInRoute;
      }
      var u := s.value.user;
      status := "Setting up your profile...";
      var existing := ExistingProfile(store.profiles, u.id, checkFails);
      if existing.None? && !upsertFails {
        store.profiles := UpsertProfile(store.profiles, u.id, u.email, ProfileName(u));
      }
      status := WelcomeStatus;
      destination := HomeRoute;
    }
  }
}
