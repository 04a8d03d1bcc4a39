/**
 * The new-chat modal: the recipient lookup by e-mail, the participant
 * check boxes, the submit guards of the direct and group forms, what
 * happens once `createChat` settles, and the reset when the modal closes.
 */
module NewChatModal {
  import opened Records
  import opened Text
  import Seqs
  import Hooks

  const NoUserFound := "No user found with this email"
  const EnterValidEmail := "Please enter a valid user email"

  function NotUser(id: Id): User -> bool {
    (u: User) => u.id != id
  }

  /** `participants`: the users other than the current one; unknown while either is unknown. */
  function Participants(currentUser: Option<User>, users: Option<seq<User>>): (r: Option<seq<User>>)
    ensures r.None? <==> currentUser.None? || users.None?
    ensures r.Some? ==> forall u :: u in r.value ==> u in users.value && u.id != currentUser.value.id
  {
    if currentUser.None? || users.None? then None
    else Some(Seqs.Filter(users.value, NotUser(currentUser.value.id)))
  }

  /** Every user other than the current one is offered, in list order, as often as listed. */
  lemma ParticipantsExact(me: User, users: seq<User>, more: seq<User>)
    ensures forall u :: multiset(Participants(Some(me), Some(users)).value)[u]
                     == if u.id == me.id then 0 else multiset(users)[u]
    ensures Participants(Some(me), Some(users + more)).value
         == Participants(Some(me), Some(users)).value + Participants(Some(me), Some(more)).value
  {
    Seqs.FilterCount(users, NotUser(me.id));
    Seqs.FilterAppend(users, more, NotUser(me.id));
  }

  predicate SameEmail(u: User, email: string) {
    Lower(u.email) == Lower(email)
  }

  /** `users.find(...)`: the first user whose e-mail equals the input, ignoring case. */
  function FindByEmail(users: seq<User>, email: string): (r: Option<User>)
    ensures r.None? <==> forall i :: 0 <= i < |users| ==> !SameEmail(users[i], email)
    ensures r.Some? ==> exists i :: 0 <= i < |users| && users[i] == r.value && SameEmail(users[i], email)
                          && forall j :: 0 <= j < i ==> !SameEmail(users[j], email)
  {
    if users == [] then None
    else if SameEmail(users[0], email) then Some(users[0])
    else
      var r := FindByEmail(users[1..], email);
      assert forall i :: 1 <= i < |users| ==> users[i] == users[1..][i - 1];
      r
  }

  /** What the modal does once `createChat` settles. */
  datatype Effects = Effects(activated: seq<Chat>, closeCalls: nat, alerted: bool)

  /**
   * A failure alerts and leaves the modal open. A group chat activates the
   * returned chat and closes the modal twice (once in its branch, once
   * after it); a direct chat does each once. A null chat is not activated.
   */
  function AfterCreate(isGroup: bool, outcome: Result<Option<Chat>>): (r: Effects)
    ensures r.alerted <==> outcome.Fail?
    ensures outcome.Fail? ==> r.activated == [] && r.closeCalls == 0
    ensures outcome.Ok? ==> r.closeCalls == (if isGroup then 2 else 1)
    ensures outcome.Ok? ==> forall c :: c in r.activated ==> Some(c) == outcome.value
    ensures outcome.Ok? && outcome.value.Some? ==> r.activated != []
  {
    match outcome
    case Fail(_) => Effects([], 0, true)
    case Ok(None) => Effects([], if isGroup then 2 else 1, false)
    case Ok(Some(c)) => if isGroup then Effects([c, c], 2, false) else Effects([c], 1, false)
  }

  /** The modal's form state. */
  class NewChatForm {
    var isGroupChat: bool
    var recipientEmail: string
    var emailError: string
    var foundRecipient: Option<User>
    var groupName: string
    var selectedParticipants: seq<Id>
    var selectedTags: seq<Id>

    /** Every field at its initial value. */
    predicate Pristine()
      reads this
    {
      && !isGroupChat && recipientEmail == "" && emailError == "" && foundRecipient.None?
      && groupName == "" && selectedParticipants == [] && selectedTags == []
    }

    constructor()
      ensures Pristine()
    {
      isGroupChat, recipientEmail, emailError, foundRecipient := false, "", "", None;
      groupName, selectedParticipants, selectedTags := "", [], [];
    }

    /** The effect on `isOpen`: a closed modal is reset, an open one untouched. */
    method ResetOnClose(isOpen: bool)
      modifies this
      ensures !isOpen ==> Pristine()
      ensures isOpen ==> unchanged(this)
    {
      if !isOpen {
        isGroupChat, recipientEmail, emailError, foundRecipient := false, "", "", None;
        groupName, selectedParticipants, selectedTags := "", [], [];
      }
    }

    method SetGroupChat(group: bool)
      modifies this`isGroupChat
      ensures isGroupChat == group
    {
      isGroupChat := group;
    }

    method SetGroupName(name: string)
      modifies this`groupName
      ensures groupName == name
    {
      groupName := name;
    }

    /**
     * `handleEmailChange(email)` against the loaded users (null while loading):
     * clears the error and the recipient, then looks the e-mail up.
     */
    method HandleEmailChange(email: string, users: Option<seq<User>>)
      modifies this`recipientEmail, this`emailError, this`foundRecipient
      ensures recipientEmail == email
      ensures email == "" ==> emailError == "" && foundRecipient.None?
      ensures email != "" ==> foundRecipient == if users.Some? then FindByEmail(users.value, email) else None
      ensures emailError == if email != "" && foundRecipient.None? && '@' in email then NoUserFound else ""
    {
      recipientEmail := email;
      emailError := "";
      foundRecipient := None;
      if email == "" {
        return;
      }
      var matched := if users.Some? then FindByEmail(users.value, email) else None;
      if matched.Some? {
        foundRecipient := matched;
      } else if '@' in email {
        emailError := NoUserFound;
      }
    }

    /** A participant check box: checking appends the id, unchecking removes every copy of it. */
    method ToggleParticipant(id: Id, checked: bool)
      modifies this`selectedParticipants
      ensures checked ==> selectedParticipants == old(selectedParticipants) + [id]
      ensures !checked ==> selectedParticipants == Seqs.Filter(old(selectedParticipants), Seqs.NotEqual(id))
      ensures !checked ==> id !in selectedParticipants
      ensures checked && id !in old(selectedParticipants) ==>
        Seqs.Filter(selectedParticipants, Seqs.NotEqual(id)) == old(selectedParticipants)
    {
      if checked {
        if id !in selectedParticipants {
          Seqs.AppendThenRemove(selectedParticipants, id);
        }
        selectedParticipants := selectedParticipants + [id];
      } else {
        selectedParticipants := Seqs.Filter(selectedParticipants, Seqs.NotEqual(id));
      }
    }

    /**
     * The guards of `handleSubmit`: the `createChat` call it makes, if any.
     * A group needs a name that is not blank; a direct chat needs a found
     * recipient, and without one the form shows an error.
     */
    method HandleSubmit() returns (request: Option<Hooks.CreateChatArgs>)
      modifies this`emailError
      ensures isGroupChat ==> emailError == old(emailError)
      ensures isGroupChat && IsBlank(groupName) ==> request.None?
      ensures isGroupChat && !IsBlank(groupName) ==>
        request == Some(Hooks.CreateChatArgs(selectedParticipants, Some(groupName), selectedTags))
      ensures !isGroupChat && foundRecipient.None? ==> request.None? && emailError == EnterValidEmail
      ensures !isGroupChat && foundRecipient.Some? ==>
        && request == Some(Hooks.CreateChatArgs([foundRecipient.value.id], Some(foundRecipient.value.name), []))
        && emailError == old(emailError)
    {
      if isGroupChat {
        if IsBlank(groupName) {
          return None;
        }
        request := Some(Hooks.CreateChatArgs(selectedParticipants, Some(groupName), selectedTags));
      } else {
        if foundRecipient.None? {
          emailError := EnterValidEmail;
          return None;
        }
        request := Some(Hooks.CreateChatArgs([foundRecipient.value.id], Some(foundRecipient.value.name), []));
      }
    }
  }
}
