/** The administration page: the user search over its fixed user list and the
    initials shown in each row's avatar. */
module Admin {
  import opened Common

  datatype AdminUser = AdminUser(
    id: nat,
    name: string,
    email: string,
    role: string,
    organization: string,
    status: string,
    lastLogin: string,
    validations: nat)

  /** The four accounts the page lists. */
  const MockUsers: seq<AdminUser> := [
    AdminUser(1, "Dr. Sarah Johnson", "sarah.johnson@cityhospital.com", "Doctor",
              "City General Hospital", "Active", "2025-01-15T10:30:00Z", 1247),
    AdminUser(2, "Dr. Rajesh Kumar", "rajesh.kumar@aiims.in", "Medical Coder",
              "AIIMS Delhi", "Active", "2025-01-15T09:15:00Z", 2156),
    AdminUser(3, "Dr. Priya Sharma", "priya.sharma@fortis.com", "Auditor",
              "Fortis Healthcare", "Inactive", "2025-01-10T14:20:00Z", 945),
    AdminUser(4, "Admin User", "admin@medicode.com", "Administrator",
              "MediCode Validator", "Active", "2025-01-15T11:45:00Z", 0)
  ]

  /** The lowercased term occurs in the lowercased name, email or organization. */
  predicate MatchesSearch(u: AdminUser, term: string)
  {
    Includes(u.name, term) || Includes(u.email, term) || Includes(u.organization, term)
  }

  function SearchKeep(term: string): AdminUser -> bool
  {
    (u: AdminUser) => MatchesSearch(u, term)
  }

  /** `filteredUsers`, over any list of users (the page applies it to `MockUsers`). */
  function FilteredUsers(users: seq<AdminUser>, term: string): (r: seq<AdminUser>)
    ensures |r| <= |users|
    ensures forall u :: u in r ==> u in users && MatchesSearch(u, term)
  {
    Filter(users, SearchKeep(term))
  }

  /** A user is listed iff it matches the term; the list keeps the page's order. */
  lemma FilteredUsersSpec(users: seq<AdminUser>, term: string)
    ensures forall u :: u in FilteredUsers(users, term) <==> u in users && MatchesSearch(u, term)
    ensures IsSubsequence(FilteredUsers(users, term), users)
    ensures multiset(FilteredUsers(users, term)) <= multiset(users)
  {
    FilterMembers(users, SearchKeep(term));
    FilterIsSubsequence(users, SearchKeep(term));
    FilterMultiset(users, SearchKeep(term));
  }

  /** The initial search box is empty and lists every user. */
  lemma EmptySearchKeepsAll(users: seq<AdminUser>)
    ensures FilteredUsers(users, "") == users
  {
    forall u | u in users ensures SearchKeep("")(u) {
      EmptyTermIncluded(u.name);
    }
    FilterKeepsAll(users, SearchKeep(""));
  }

  /** `n[0]` joined as text: the first character, or nothing for an empty word. */
  function Initial(word: string): (r: string)
    ensures |r| <= 1
    ensures word != "" ==> r == [word[0]]
    ensures word == "" ==> r == ""
  {
    if word == "" then "" else [word[0]]
  }

  function InitialsOfWords(words: seq<string>): (r: seq<string>)
    ensures |r| == |words|
    ensures forall k :: 0 <= k < |words| ==> r[k] == Initial(words[k])
  {
    seq(|words|, k requires 0 <= k < |words| => Initial(words[k]))
  }

  lemma {:induction false} JoinEmptyShort(parts: seq<string>)
    requires forall k :: 0 <= k < |parts| ==> |parts[k]| <= 1
    ensures |Join(parts, "")| <= |parts|
  {
    if |parts| > 1 {
      JoinEmptyShort(parts[1..]);
    }
  }

  lemma {:induction false} JoinEmptyChars(parts: seq<string>, c: char)
    requires c in Join(parts, "")
    ensures exists k :: 0 <= k < |parts| && c in parts[k]
  {
    if |parts| == 1 {
      assert c in parts[0];
    } else {
      assert Join(parts, "") == parts[0] + Join(parts[1..], "");
      if c !in parts[0] {
        JoinEmptyChars(parts[1..], c);
        var k :| 0 <= k < |parts[1..]| && c in parts[1..][k];
        assert c in parts[k + 1];
      }
    }
  }

  /** `name.split(' ').map(n => n[0]).join('')`: at most one letter per word, each
      the first character of some word, and never a space. */
  function Initials(name: string): (r: string)
    ensures |r| <= |Split(name, ' ')|
    ensures forall c :: c in r ==>
              exists k :: 0 <= k < |Split(name, ' ')| && Split(name, ' ')[k] != "" && Split(name, ' ')[k][0] == c
    ensures ' ' !in r
  {
    var words := Split(name, ' ');
    var parts := InitialsOfWords(words);
    InitialsFacts(words, parts);
    Join(parts, "")
  }

  lemma InitialsFacts(words: seq<string>, parts: seq<string>)
    requires forall k :: 0 <= k < |words| ==> ' ' !in words[k]
    requires parts == InitialsOfWords(words)
    ensures |Join(parts, "")| <= |words|
    ensures forall c :: c in Join(parts, "") ==> exists k :: 0 <= k < |words| && words[k] != "" && words[k][0] == c
    ensures ' ' !in Join(parts, "")
  {
    JoinEmptyShort(parts);
    forall c | c in Join(parts, "")
      ensures exists k :: 0 <= k < |words| && words[k] != "" && words[k][0] == c
    {
      JoinEmptyChars(parts, c);
      var k :| 0 <= k < |parts| && c in parts[k];
      assert words[k] != "" && words[k][0] == c;
    }
    forall k | 0 <= k < |parts| ensures ' ' !in parts[k] {
      assert ' ' !in words[k];
      if words[k] != "" {
        assert words[k][0] in words[k];
      }
    }
    JoinAvoids(parts, "", ' ');
  }

  /** A single word gives its first character. */
  lemma InitialsOfWord(word: string)
    requires ' ' !in word
    ensures Initials(word) == Initial(word)
  {
    SplitNoSeparator(word, ' ');
  }

  /** The initials of `first rest` are the initial of `first` followed by the initials of `rest`. */
  lemma InitialsStep(first: string, rest: string)
    requires ' ' !in first
    ensures Initials(first + " " + rest) == Initial(first) + Initials(rest)
  {
    SplitAtSeparator(first, ' ', rest);
    assert first + " " + rest == first + [' '] + rest;
    var words := Split(rest, ' ');
    assert InitialsOfWords([first] + words) == [Initial(first)] + InitialsOfWords(words);
    assert ([Initial(first)] + InitialsOfWords(words))[1..] == InitialsOfWords(words);
  }

  /** The avatar of the administrator account. */
  lemma AdminUserInitials()
    ensures Initials(MockUsers[3].name) == "AU"
  {
    InitialsOfWord("User");
    assert Initials("User") == "U";
    InitialsStep("Admin", "User");
    assert "Admin" + " " + "User" == MockUsers[3].name;
  }
}
