/** The user-role manager: the users of the selected role, the avatar
    initials built from a name, and the label of each role. */
module UserRoles {
  import Common

  /** `'PERSON_IN_NEED' | 'VOLUNTEER' | 'NGO'`. */
  datatype UserRole = PersonInNeed | Volunteer | Ngo

  /** A listed user, with the fields the manager filters and draws from. */
  datatype RoleUser = RoleUser(id: string, name: string, email: string, role: UserRole)

  /** The four demonstration users. */
  const MockUsers: seq<RoleUser> := [
    RoleUser("1", "Sarah Johnson", "sarah@example.com", PersonInNeed),
    RoleUser("2", "Mike Chen", "mike@example.com", Volunteer),
    RoleUser("3", "Community Kitchen", "info@communitykitchen.org", Ngo),
    RoleUser("4", "Emily Davis", "emily@example.com", Volunteer)
  ]

  /** The role selected when the manager first renders. */
  const InitialSelectedRole: UserRole := Volunteer

  // ---------------------------------------------------------------------
  // Users of one role
  // ---------------------------------------------------------------------

  function HasRole(role: UserRole): RoleUser -> bool
  {
    (u: RoleUser) => u.role == role
  }

  /** `users.filter(user => user.role === selectedRole)`. */
  function FilteredUsers(users: seq<RoleUser>, selectedRole: UserRole): (r: seq<RoleUser>)
    ensures |r| <= |users|
    ensures forall u :: u in r <==> u in users && u.role == selectedRole
  {
    Common.Filter(users, HasRole(selectedRole))
  }

  /** The users of one role are listed in the order of the full list. */
  lemma FilteredUsersKeepOrder(users: seq<RoleUser>, selectedRole: UserRole)
    ensures Common.IsSubsequence(FilteredUsers(users, selectedRole), users)
  {
    Common.FilterIsSubsequence(users, HasRole(selectedRole));
  }

  /** Every user appears under exactly one of the three tabs: the three
      lists together are exactly as long as the full list. */
  lemma {:induction false} RolesPartitionUsers(users: seq<RoleUser>)
    ensures |FilteredUsers(users, PersonInNeed)| + |FilteredUsers(users, Volunteer)| + |FilteredUsers(users, Ngo)| == |users|
  {
    if users != [] {
      RolesPartitionUsers(users[1..]);
      assert users == [users[0]] + users[1..];
    }
  }

  /** On first render the manager lists the two demonstration volunteers,
      in list order. */
  lemma InitialTabListsVolunteers()
    ensures FilteredUsers(MockUsers, InitialSelectedRole) == [MockUsers[1], MockUsers[3]]
  {
    var p := HasRole(Volunteer);
    assert Common.Filter(MockUsers[3..], p) == [MockUsers[3]];
    assert Common.Filter(MockUsers[2..], p) == [MockUsers[3]];
    assert Common.Filter(MockUsers[1..], p) == [MockUsers[1], MockUsers[3]];
  }

  // ---------------------------------------------------------------------
  // Avatar initials
  // ---------------------------------------------------------------------

  /** `s.split(sep)` with a one-character separator: the pieces between
      separators, empty pieces included, and always at least one piece. */
  function Split(s: string, sep: char): (words: seq<string>)
    ensures |words| >= 1
    ensures forall k :: 0 <= k < |words| ==> sep !in words[k]
  {
    if s == [] then [""]
    else
      var rest := Split(s[1..], sep);
      if s[0] == sep then [""] + rest
      else [[s[0]] + rest[0]] + rest[1..]
  }

  /** `words.join(sep)`. */
  function Join(words: seq<string>, sep: char): string
    requires |words| >= 1
  {
    if |words| == 1 then words[0] else words[0] + [sep] + Join(words[1..], sep)
  }

  /** Splitting loses nothing: joining the pieces back gives the name. */
  lemma {:induction false} JoinSplit(s: string, sep: char)
    ensures Join(Split(s, sep), sep) == s
  {
    if s != [] {
      var rest := Split(s[1..], sep);
      JoinSplit(s[1..], sep);
      if s[0] != sep {
        var words := Split(s, sep);
        assert words[0] == [s[0]] + rest[0];
        if |rest| == 1 {
          assert Join(words, sep) == [s[0]] + rest[0];
        } else {
          assert words[1..] == rest[1..];
          assert Join(words, sep) == [s[0]] + (rest[0] + [sep] + Join(rest[1..], sep));
        }
        assert s == [s[0]] + s[1..];
      }
    }
  }

  /** `words.map(n => n[0]).join('')`: an empty word gives `undefined`, which
      the join writes as nothing. */
  function FirstLetters(words: seq<string>): string
  {
    if words == [] then ""
    else (if words[0] == "" then "" else [words[0][0]]) + FirstLetters(words[1..])
  }

  /** `user.name.split(' ').map(n => n[0]).join('')`. */
  function AvatarInitials(name: string): string
  {
    FirstLetters(Split(name, ' '))
  }

  /** The non-empty words, in order. */
  function NonEmptyWords(words: seq<string>): (r: seq<string>)
    ensures |r| <= |words|
    ensures forall k :: 0 <= k < |r| ==> r[k] != "" && r[k] in words
  {
    if words == [] then []
    else if words[0] == "" then NonEmptyWords(words[1..])
    else [words[0]] + NonEmptyWords(words[1..])
  }

  /** There is one letter per non-empty word, and it is that word's first
      character. */
  lemma {:induction false} FirstLettersOfNonEmptyWords(words: seq<string>)
    ensures var kept := NonEmptyWords(words);
      && |FirstLetters(words)| == |kept|
      && forall k :: 0 <= k < |kept| ==> FirstLetters(words)[k] == kept[k][0]
  {
    if words != [] {
      FirstLettersOfNonEmptyWords(words[1..]);
      if words[0] != "" {
        var kept := NonEmptyWords(words);
        var tail := NonEmptyWords(words[1..]);
        assert kept == [words[0]] + tail;
        assert FirstLetters(words) == [words[0][0]] + FirstLetters(words[1..]);
        forall k | 1 <= k < |kept| ensures FirstLetters(words)[k] == kept[k][0] {
          assert kept[k] == tail[k - 1];
        }
      }
    }
  }

  /** The initials are the first characters of the space-separated words of
      the name, one per non-empty word, and never hold a space. */
  lemma AvatarInitialsOfWords(name: string)
    ensures var kept := NonEmptyWords(Split(name, ' '));
      && |AvatarInitials(name)| == |kept|
      && (forall k :: 0 <= k < |kept| ==> AvatarInitials(name)[k] == kept[k][0])
      && ' ' !in AvatarInitials(name)
  {
    var words := Split(name, ' ');
    var kept := NonEmptyWords(words);
    FirstLettersOfNonEmptyWords(words);
    forall k | 0 <= k < |kept| ensures AvatarInitials(name)[k] != ' ' {
      assert kept[k][0] in kept[k];
    }
  }

  // ---------------------------------------------------------------------
  // Role labels
  // ---------------------------------------------------------------------

  /** `getRoleLabel`: defined for each of the three roles. */
  function GetRoleLabel(role: UserRole): string
  {
    match role
    case PersonInNeed => "Person in Need"
    case Volunteer => "Volunteer"
    case Ngo => "NGO Organization"
  }

  /** No two roles share a label. */
  lemma RoleLabelsDistinct(a: UserRole, b: UserRole)
    ensures GetRoleLabel(a) == GetRoleLabel(b) <==> a == b
  {
    assert |GetRoleLabel(PersonInNeed)| == 14;
    assert |GetRoleLabel(Volunteer)| == 9;
    assert |GetRoleLabel(Ngo)| == 16;
  }
}
