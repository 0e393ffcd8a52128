/**
 * The state of the phonebook client's `App` component (client/App.jsx) and
 * its event handlers. Every network call, `window.confirm` prompt and timer
 * is outside the model: the answer a handler receives is a parameter, and a
 * `setTimeout` that clears the notification is recorded as a pending clear
 * with its delay.
 */
module PhonebookClient {
  import opened Wrappers
  import opened Contacts
  import opened PersonList

  /** How long a success notification stays before its clear runs (milliseconds). */
  const SuccessClearDelay: nat := 5000
  /** How long an error notification stays before its clear runs (milliseconds). */
  const ErrorClearDelay: nat := 15000

  /** The message shown after a successful create. */
  function AddedMessage(name: string): (r: string)
    ensures |r| == 6 + |name| && r[..6] == "Added " && r[6..] == name
  {
    "Added " + name
  }

  /** The request a handler sends through the person service. */
  datatype Request =
    | Update(id: Id, person: Person)     // personService.update(id, newPerson)
    | Create(name: string, number: string) // personService.create({ name, number })

  /** How the server answered a create or update request. */
  datatype Reply =
    | Saved(person: Person)   // the promise resolved with the stored record
    | Rejected(error: string) // it rejected; `error.response.data.error`

  class AppState {
    var persons: seq<Person>
    var newName: string
    var newNumber: string
    var newFilter: string
    var resultMessage: Option<string>
    var isSuccess: bool
    /** Delays of the clears scheduled by `setTimeout` that have not run yet, oldest first. */
    var pendingClears: seq<nat>

    /** The `useState` initial values. */
    constructor ()
      ensures persons == [] && newName == "" && newNumber == "" && newFilter == ""
      ensures resultMessage == None && !isSuccess && pendingClears == []
    {
      persons := [];
      newName, newNumber, newFilter := "", "", "";
      resultMessage := None;
      isSuccess := false;
      pendingClears := [];
    }

    /** The `useEffect` load: the list fetched from the server replaces `persons`. */
    method Load(initialPersons: seq<Person>)
      modifies this
      ensures persons == initialPersons
      ensures newName == old(newName) && newNumber == old(newNumber) && newFilter == old(newFilter)
      ensures resultMessage == old(resultMessage) && isSuccess == old(isSuccess)
      ensures pendingClears == old(pendingClears)
    {
      persons := initialPersons;
    }

    /** `handleNameChange`. */
    method SetNewName(value: string)
      modifies this`newName
      ensures newName == value
    {
      newName := value;
    }

    /** `handleNumberChange`. */
    method SetNewNumber(value: string)
      modifies this`newNumber
      ensures newNumber == value
    {
      newNumber := value;
    }

    /** `handleFilterChange`. */
    method SetNewFilter(value: string)
      modifies this`newFilter
      ensures newFilter == value
    {
      newFilter := value;
    }

    /**
     * `addPerson`. `confirmed` is the answer to the replace prompt (asked
     * only when the name is already listed) and `reply` is the server's
     * answer to the request sent, which is returned in `sent`.
     */
    method AddPerson(confirmed: bool, reply: Reply) returns (sent: Option<Request>)
      modifies this
      ensures newName == old(newName) && newNumber == old(newNumber) && newFilter == old(newFilter)
      // The name is listed: replace its number after confirmation.
      ensures IndexOfName(old(persons), newName).Some? ==>
        var existing := old(persons)[IndexOfName(old(persons), newName).value];
        && sent == (if confirmed then Some(Update(existing.id, Person(existing.id, existing.name, newNumber))) else None)
        && persons == (if confirmed && reply.Saved? then ReplaceById(old(persons), reply.person) else old(persons))
        && resultMessage == old(resultMessage) && isSuccess == old(isSuccess)
        && pendingClears == old(pendingClears)
      // The name is new: create the entry.
      ensures IndexOfName(old(persons), newName).None? ==>
        && sent == Some(Create(newName, newNumber))
        && (reply.Saved? ==>
              && persons == old(persons) + [reply.person]
              && isSuccess
              && resultMessage == Some(AddedMessage(reply.person.name))
              && pendingClears == old(pendingClears) + [SuccessClearDelay])
        && (reply.Rejected? ==>
              && persons == old(persons)
              && !isSuccess
              && resultMessage == Some(reply.error)
              && pendingClears == old(pendingClears) + [ErrorClearDelay])
    {
      var found := IndexOfName(persons, newName);
      if found.Some? {
        sent := None;
        if confirmed {
          var person := persons[found.value];
          var newPerson := Person(person.id, person.name, newNumber);
          sent := Some(Update(person.id, newPerson));
          match reply
          case Saved(returnedPerson) =>
            persons := ReplaceById(persons, returnedPerson);
          case Rejected(_) =>
            // only logged to the console
        }
      } else {
        sent := Some(Create(newName, newNumber));
        match reply
        case Saved(returnedPerson) =>
          isSuccess := true;
          persons := persons + [returnedPerson];
          resultMessage := Some(AddedMessage(returnedPerson.name));
          pendingClears := pendingClears + [SuccessClearDelay];
        case Rejected(error) =>
          isSuccess := false;
          resultMessage := Some(error);
          pendingClears := pendingClears + [ErrorClearDelay];
      }
    }

    /**
     * `deletePerson(id)`. `confirmed` answers the delete prompt and `deleted`
     * says whether the delete request succeeded; `sent` is the id the request
     * carried. An id that is not listed makes `deletedPerson.name` throw
     * before the prompt, so nothing happens. A failed delete sets
     * `isSuccess` to false and then throws on the undefined `person` while
     * composing its message, so no message is shown and no clear is
     * scheduled.
     */
    method DeletePerson(id: Id, confirmed: bool, deleted: bool) returns (sent: Option<Id>)
      modifies this
      ensures newName == old(newName) && newNumber == old(newNumber) && newFilter == old(newFilter)
      ensures resultMessage == old(resultMessage) && pendingClears == old(pendingClears)
      ensures IndexOfId(old(persons), id).None? || !confirmed ==>
        sent == None && persons == old(persons) && isSuccess == old(isSuccess)
      ensures IndexOfId(old(persons), id).Some? && confirmed ==>
        && sent == Some(id)
        && persons == (if deleted then RemoveById(old(persons), id) else old(persons))
        && isSuccess == (if deleted then old(isSuccess) else false)
    {
      sent := None;
      var found := IndexOfId(persons, id);
      if found.Some? && confirmed {
        var deletedPerson := persons[found.value];
        sent := Some(deletedPerson.id);
        if deleted {
          persons := RemoveById(persons, deletedPerson.id);
        } else {
          isSuccess := false;
        }
      }
    }

    /**
     * The `setTimeout` callback of the clear at position `k` runs: it sets
     * the message to null whatever message is showing by then, since no
     * earlier clear is ever cancelled.
     */
    method RunClear(k: nat)
      requires k < |pendingClears|
      modifies this
      ensures resultMessage == None
      ensures pendingClears == old(pendingClears[..k] + pendingClears[k + 1..])
      ensures persons == old(persons) && isSuccess == old(isSuccess)
      ensures newName == old(newName) && newNumber == old(newNumber) && newFilter == old(newFilter)
    {
      resultMessage := None;
      pendingClears := pendingClears[..k] + pendingClears[k + 1..];
    }
  }
}
