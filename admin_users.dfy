/**
 * The admin user list: the search filter, the avatar initials and the avatar
 * gradient picked from the user id.
 */
module AdminUsersPage {

  import opened Types
  import Seqs
  import Text

  /**
   * The predicate of `filteredUsers`: lower-cased name or email containing the
   * lower-cased term, or the phone text containing the term as typed.
   */
  predicate UserShown(u: ProfileRow, searchTerm: string)
  {
    var q := Text.Lower(searchTerm);
    || (u.name.Some? && Text.Contains(Text.Lower(u.name.value), q))
    || Text.Contains(Text.Lower(u.email), q)
    || (u.phone.Some? && Text.Contains(u.phone.value, searchTerm))
  }

  /** `filteredUsers`. */
  function FilterUsers(users: seq<ProfileRow>, searchTerm: string): seq<ProfileRow>
  {
    Seqs.Filter(users, (u: ProfileRow) => UserShown(u, searchTerm))
  }

  /**
   * The filtered list is an order-preserving subsequence holding exactly the
   * matching users, and an empty search keeps everyone.
   */
  lemma FilterUsersProperties(users: seq<ProfileRow>, searchTerm: string)
    ensures Seqs.IsSubsequence(FilterUsers(users, searchTerm), users)
    ensures forall u :: u in FilterUsers(users, searchTerm) <==> u in users && UserShown(u, searchTerm)
    ensures FilterUsers(users, "") == users
  {
    var shown := (u: ProfileRow) => UserShown(u, searchTerm);
    Seqs.FilterIsSubsequence(users, shown);
    var r := FilterUsers(users, searchTerm);
    forall u | u in r ensures u in users && UserShown(u, searchTerm) {
      var i :| 0 <= i < |r| && r[i] == u;
    }
    forall u | u in users && UserShown(u, searchTerm) ensures u in r {
      var i :| 0 <= i < |users| && users[i] == u;
    }
    forall i | 0 <= i < |users| ensures UserShown(users[i], "") {
      Text.ContainsEmpty(Text.Lower(users[i].email));
      assert Text.Lower("") == "";
    }
    Seqs.FilterKeepsAll(users, (u: ProfileRow) => UserShown(u, ""));
  }

  /** `part.charAt(0)` of every part, joined: an empty part contributes nothing. */
  function FirstChars(parts: seq<string>): string
  {
    if parts == [] then ""
    else (if parts[0] == "" then "" else [parts[0][0]]) + FirstChars(parts[1..])
  }

  /** Every character is a space (`' '`, the separator `split` uses here). */
  predicate AllSpaces(s: string)
  {
    forall i :: 0 <= i < |s| ==> s[i] == ' '
  }

  /**
   * The characters that begin a word, in order: each non-space character at the
   * start or right after a space.  `afterSpace` says whether `s` follows a space
   * (or nothing).
   */
  function WordStarts(s: string, afterSpace: bool): string
  {
    if s == [] then ""
    else (if s[0] != ' ' && afterSpace then [s[0]] else "") + WordStarts(s[1..], s[0] == ' ')
  }

  /**
   * Splitting at spaces and taking each part's first character picks exactly the
   * word-starting characters; past the first part, exactly those after a space.
   */
  lemma {:induction false} FirstCharsAreWordStarts(s: string)
    ensures FirstChars(Text.Split(s, ' ')) == WordStarts(s, true)
    ensures FirstChars(Text.Split(s, ' ')[1..]) == WordStarts(s, false)
    decreases |s|
  {
    if s != [] {
      FirstCharsAreWordStarts(s[1..]);
      var rest := Text.Split(s[1..], ' ');
      if s[0] == ' ' {
        assert Text.Split(s, ' ') == [""] + rest;
        assert Text.Split(s, ' ')[1..] == rest;
      } else {
        var parts := Text.Split(s, ' ');
        assert parts == [[s[0]] + rest[0]] + rest[1..];
        assert parts[1..] == rest[1..];
        assert FirstChars(parts) == [s[0]] + FirstChars(parts[1..]);
      }
    }
  }

  /**
   * `getUserInitials`: the first characters of the space-separated words, upper-cased,
   * cut to two, or '?' when that leaves nothing or there is no name.
   */
  function UserInitials(name: Option<string>): (r: string)
    ensures 1 <= |r| <= 2
    ensures name.Some? && WordStarts(name.value, true) != "" ==>
      var w := WordStarts(name.value, true);
      |r| == (if |w| < 2 then |w| else 2) && forall i :: 0 <= i < |r| ==> r[i] == Text.UpperChar(w[i])
    ensures (name.None? || WordStarts(name.value, true) == "") ==> r == "?"
  {
    if name.None? then "?"
    else
      FirstCharsAreWordStarts(name.value);
      var initials := Text.Take(Text.Upper(FirstChars(Text.Split(name.value, ' '))), 2);
      if initials == "" then "?" else initials
  }

  /**
   * The words' first characters: none for a name of spaces only; otherwise the first
   * of them is the first non-space character of the name.
   */
  lemma {:induction false} FirstCharsOfWords(s: string)
    ensures FirstChars(Text.Split(s, ' ')) == "" <==> AllSpaces(s)
    ensures !AllSpaces(s) ==>
      exists i :: 0 <= i < |s| && AllSpaces(s[..i]) && s[i] != ' ' && FirstChars(Text.Split(s, ' '))[0] == s[i]
    decreases |s|
  {
    if s != [] {
      FirstCharsOfWords(s[1..]);
      var rest := Text.Split(s[1..], ' ');
      if s[0] == ' ' {
        assert Text.Split(s, ' ')[1..] == rest;
        assert FirstChars(Text.Split(s, ' ')) == FirstChars(rest);
        if !AllSpaces(s) {
          assert !AllSpaces(s[1..]);
          var j :| 0 <= j < |s[1..]| && AllSpaces(s[1..][..j]) && s[1..][j] != ' ' && FirstChars(rest)[0] == s[1..][j];
          assert s[..j + 1] == [s[0]] + s[1..][..j];
          assert AllSpaces(s[..j + 1]);
        } else {
          assert AllSpaces(s[1..]);
        }
      } else {
        assert FirstChars(Text.Split(s, ' '))[0] == s[0];
        assert AllSpaces(s[..0]);
      }
    }
  }

  /**
   * '?' for a missing name or a name of spaces only; otherwise the initials start
   * with the upper-cased first non-space character.
   */
  lemma UserInitialsCases(name: Option<string>)
    ensures name.None? || AllSpaces(name.value) ==> UserInitials(name) == "?"
    ensures name.Some? && !AllSpaces(name.value) ==>
      exists i :: 0 <= i < |name.value| && AllSpaces(name.value[..i]) && name.value[i] != ' ' &&
        UserInitials(name)[0] == Text.UpperChar(name.value[i])
    ensures name.Some? ==> (WordStarts(name.value, true) == "" <==> AllSpaces(name.value))
  {
    if name.Some? {
      FirstCharsOfWords(name.value);
      FirstCharsAreWordStarts(name.value);
    }
  }

  const Gradients: seq<string> := [
    "from-pink-400 to-rose-400",
    "from-purple-400 to-indigo-400",
    "from-blue-400 to-cyan-400",
    "from-green-400 to-emerald-400",
    "from-yellow-400 to-orange-400",
    "from-red-400 to-pink-400"]

  /**
   * `id.charCodeAt(0) % gradients.length`; an empty id has no character code and
   * picks no gradient.
   */
  function GradientIndex(id: string): (r: Option<nat>)
    ensures r.Some? <==> id != ""
    ensures r.Some? ==> r.value < |Gradients|
  {
    if id == "" then None else Some((id[0] as int) % |Gradients|)
  }

  /** `getRandomGradient`: the gradient at that index. */
  function Gradient(id: string): (r: Option<string>)
    ensures r.Some? <==> id != ""
    ensures r.Some? ==> r.value in Gradients
  {
    match GradientIndex(id)
    case None => None
    case Some(k) => Some(Gradients[k])
  }

  /** The gradient depends on the first character only, and codes six apart share it. */
  lemma GradientByFirstCharacter(a: string, b: string)
    requires a != "" && b != ""
    ensures a[0] == b[0] ==> Gradient(a) == Gradient(b)
    ensures (a[0] as int) + 6 == b[0] as int ==> Gradient(a) == Gradient(b)
  {
  }
}
