/** The admin's user table: it hides administrators, searches, edits and deletes
    users. */
module UserManagement {
  import opened Wrappers
  import opened Text
  import opened Types
  import opened Lists
  import Api
  import Initials

  /** How an API call ended: its response, or a throw with the error's text. */
  datatype CallOutcome<T> = Replied(response: ApiResponse<T>) | Threw(error: string)

  /** The edit dialog's fields. */
  datatype EditForm = EditForm(firstName: string, lastName: string, email: string, phone: string, dateOfBirth: string)

  const EmptyForm := EditForm("", "", "", "", "")

  /** Every user whose role is not "admin", in order. */
  function RegularUsers(users: seq<User>): (r: seq<User>)
    ensures forall u :: u in r <==> u in users && u.is_adman != "admin"
  {
    Filter(users, (u: User) => u.is_adman != "admin")
  }

  /** The search test: the term occurs, ignoring ASCII case, in the name or the
      e-mail address, or occurs as typed in the phone number. */
  predicate MatchesSearch(u: User, term: string)
  {
    Contains(Lower(u.name), Lower(term)) || Contains(Lower(u.email), Lower(term)) || Contains(u.phone_number, term)
  }

  function SearchTest(term: string): User -> bool
  {
    (u: User) => MatchesSearch(u, term)
  }

  /** The users the table shows for a search term. */
  function SearchUsers(users: seq<User>, term: string): (r: seq<User>)
    ensures forall u :: u in r <==> u in users && MatchesSearch(u, term)
  {
    Filter(users, SearchTest(term))
  }

  /** An empty search term shows every user, in order. */
  lemma EmptySearchShowsAll(users: seq<User>)
    ensures SearchUsers(users, "") == users
  {
    forall i | 0 <= i < |users|
      ensures SearchTest("")(users[i])
    {
      ContainsEmpty(Lower(users[i].name));
    }
    FilterAll(users, SearchTest(""));
  }

  /** The edit form of a user: the first space-separated part of the name as the
      first name, the other parts joined by spaces as the last name. */
  function EditFormOf(u: User): (f: EditForm)
    ensures f.email == u.email && f.phone == u.phone_number && f.dateOfBirth == u.DOB
    ensures ' ' !in u.name ==> f.firstName == u.name && f.lastName == ""
    ensures ' ' in u.name ==> f.firstName + " " + f.lastName == u.name
    ensures ' ' !in f.firstName
  {
    var parts := Split(u.name, ' ');
    var f := EditForm(parts[0], Join(parts[1..], " "), u.email, u.phone_number, u.DOB);
    SplitPartsFree(u.name, ' ');
    assert parts[0] in parts;
    if ' ' in u.name then
      JoinSplit(u.name, ' ');
      SplitCount(u.name, ' ');
      assert multiset(u.name)[' '] > 0;
      assert " " == [' '];
      f
    else
      SplitNoSep(u.name, ' ');
      f
  }

  /** Saving the edit form of a user whose name is words separated by single
      spaces sends the same name back. */
  lemma EditNameRoundTrip(u: User, words: seq<string>)
    requires |words| >= 2 && forall k :: 0 <= k < |words| ==> words[k] != "" && NoSpace(words[k])
    requires u.name == Join(words, " ")
    ensures Api.FullName(EditFormOf(u).firstName, EditFormOf(u).lastName) == u.name
  {
    assert ' ' in u.name by {
      assert u.name == words[0] + " " + Join(words[1..], " ");
      assert u.name[|words[0]|] == ' ';
    }
    Initials.JoinedWordsUntrimmed(words);
  }

  /** The list after a successful update: entries with the id become the server's
      user, every other entry and the length unchanged. */
  function ReplaceById(users: seq<User>, id: string, updated: User): (r: seq<User>)
    ensures |r| == |users|
    ensures forall i :: 0 <= i < |users| ==> (users[i].id == id ==> r[i] == updated) && (users[i].id != id ==> r[i] == users[i])
  {
    MapWhere(users, (u: User) => u.id == id, (u: User) => updated)
  }

  function OtherId(id: string): User -> bool
  {
    (u: User) => u.id != id
  }

  /** The list after a successful delete: the users with another id, in order. */
  function RemoveById(users: seq<User>, id: string): (r: seq<User>)
    ensures forall u :: u in r <==> u in users && u.id != id
  {
    Filter(users, OtherId(id))
  }

  /** A delete removes exactly the entries with the id: the kept ones and the
      removed ones together make up the list. */
  lemma RemoveExactly(users: seq<User>, id: string)
    ensures |RemoveById(users, id)| + |Filter(users, (u: User) => u.id == id)| == |users|
    ensures Subsequence(RemoveById(users, id), users)
  {
    FilterPartition(users, OtherId(id), (u: User) => u.id == id);
    FilterSubsequence(users, OtherId(id));
  }

  class Page {
    var users: seq<User>
    var searchTerm: string
    var isLoading: bool
    var editingUser: Option<User>
    var editForm: EditForm
    /** The last `alert` shown, if any. */
    var alert: Option<string>

    constructor ()
      ensures users == [] && searchTerm == "" && isLoading && editingUser.None? && editForm == EmptyForm && alert.None?
    {
      users := [];
      searchTerm := "";
      isLoading := true;
      editingUser := None;
      editForm := EmptyForm;
      alert := None;
    }

    /** `filteredUsers`, which an effect recomputes whenever the users or the
        search term change. */
    function FilteredUsers(): seq<User>
      reads this
    {
      SearchUsers(users, searchTerm)
    }

    /** `fetchUsers`: the regular users of a successful reply, or an empty list
        and an alert. */
    method FetchUsers(outcome: CallOutcome<seq<User>>)
      modifies this`users, this`isLoading, this`alert
      ensures !isLoading
      ensures outcome.Replied? && outcome.response.success && outcome.response.data.Some? ==>
        users == RegularUsers(outcome.response.data.value) && alert == old(alert)
      ensures outcome.Replied? && !(outcome.response.success && outcome.response.data.Some?) ==>
        users == [] && alert == Some("Failed to fetch users: " + outcome.response.error.GetOr("undefined"))
      ensures outcome.Threw? ==> users == [] && alert == Some("Error fetching users: " + outcome.error)
    {
      isLoading := true;
      match outcome {
        case Replied(response) =>
          if response.success && response.data.Some? {
            users := RegularUsers(response.data.value);
          } else {
            alert := Some("Failed to fetch users: " + response.error.GetOr("undefined"));
            users := [];
          }
        case Threw(error) =>
          alert := Some("Error fetching users: " + error);
          users := [];
      }
      isLoading := false;
    }

    /** `handleEditUser`: the dialog opens on the user with the form filled from
        it. */
    method HandleEditUser(u: User)
      modifies this`editingUser, this`editForm
      ensures editingUser == Some(u) && editForm == EditFormOf(u)
    {
      editingUser := Some(u);
      editForm := EditFormOf(u);
    }

    /** `handleUpdateUser`: without a user being edited nothing happens; otherwise
        the form is sent, a successful reply replaces the user's entries and closes
        the dialog, and any other ending alerts and leaves the list and the
        dialog. `sent` is the id and the form sent. */
    method HandleUpdateUser(outcome: CallOutcome<User>) returns (sent: Option<(string, EditForm)>)
      modifies this`users, this`editingUser, this`alert
      ensures old(editingUser).None? ==> sent.None? && users == old(users) && editingUser == old(editingUser) && alert == old(alert)
      ensures old(editingUser).Some? ==> sent == Some((old(editingUser).value.id, editForm))
      ensures old(editingUser).Some? && outcome.Replied? && outcome.response.success && outcome.response.data.Some? ==>
        users == ReplaceById(old(users), old(editingUser).value.id, outcome.response.data.value) &&
        editingUser.None? && alert == Some("User updated successfully")
      ensures old(editingUser).Some? && outcome.Replied? && !(outcome.response.success && outcome.response.data.Some?) ==>
        users == old(users) && editingUser == old(editingUser) &&
        alert == Some("Failed to update user: " + outcome.response.error.GetOr("undefined"))
      ensures old(editingUser).Some? && outcome.Threw? ==>
        users == old(users) && editingUser == old(editingUser) && alert == Some("Error updating user: " + outcome.error)
    {
      if editingUser.None? {
        return None;
      }
      var id := editingUser.value.id;
      sent := Some((id, editForm));
      match outcome {
        case Replied(response) =>
          if response.success && response.data.Some? {
            users := ReplaceById(users, id, response.data.value);
            editingUser := None;
            alert := Some("User updated successfully");
          } else {
            alert := Some("Failed to update user: " + response.error.GetOr("undefined"));
          }
        case Threw(error) =>
          alert := Some("Error updating user: " + error);
      }
    }

    /** `handleDeleteUser`: a declined confirmation does nothing; a successful
        delete removes the user's entries; a failure alerts and leaves the list.
        `requested` says whether the delete was sent. */
    method HandleDeleteUser(id: string, confirmed: bool, outcome: CallOutcome<bool>) returns (requested: bool)
      modifies this`users, this`alert
      ensures requested == confirmed
      ensures !confirmed ==> users == old(users) && alert == old(alert)
      ensures confirmed && outcome.Replied? && outcome.response.success ==>
        users == RemoveById(old(users), id) && alert == Some("User deleted successfully")
      ensures confirmed && outcome.Replied? && !outcome.response.success ==>
        users == old(users) && alert == Some("Failed to delete user: " + outcome.response.error.GetOr("undefined"))
      ensures confirmed && outcome.Threw? ==> users == old(users) && alert == Some("Error deleting user: " + outcome.error)
    {
      if !confirmed {
        return false;
      }
      match outcome {
        case Replied(response) =>
          if response.success {
            users := RemoveById(users, id);
            alert := Some("User deleted successfully");
          } else {
            alert := Some("Failed to delete user: " + response.error.GetOr("undefined"));
          }
        case Threw(error) =>
          alert := Some("Error deleting user: " + error);
      }
      return true;
    }
  }

  /** After a successful delete the table shows no user with that id, whatever
      the search term. */
  lemma DeletedNotShown(users: seq<User>, id: string, term: string, u: User)
    requires u in SearchUsers(RemoveById(users, id), term)
    ensures u.id != id && u in users
  {
  }
}
