/**
 * The pure list expressions of the phonebook client (client/App.jsx): the
 * `find` calls, the `map` that swaps in an updated entry, the `filter` that
 * drops a deleted one, the filtered view `personsToShow`, and the choice the
 * `Notification` component makes.
 */
module PersonList {
  import opened Wrappers
  import opened Contacts
  import opened Sequences
  import opened Text

  /** `persons.find(item => item.name === name)`, as the position of the first entry with that exact name. */
  function IndexOfName(persons: seq<Person>, name: string): (r: Option<nat>)
    ensures r.Some? ==> r.value < |persons| && persons[r.value].name == name
    ensures r.Some? ==> forall j :: 0 <= j < r.value ==> persons[j].name != name
    ensures r.None? <==> forall j :: 0 <= j < |persons| ==> persons[j].name != name
  {
    FirstIndex(persons, (p: Person) => p.name == name)
  }

  /** `persons.find(item => item.id === id)`, as the position of the first entry with that id. */
  function IndexOfId(persons: seq<Person>, id: Id): (r: Option<nat>)
    ensures r.Some? ==> r.value < |persons| && persons[r.value].id == id
    ensures r.Some? ==> forall j :: 0 <= j < r.value ==> persons[j].id != id
    ensures r.None? <==> forall j :: 0 <= j < |persons| ==> persons[j].id != id
  {
    FirstIndex(persons, (p: Person) => p.id == id)
  }

  /**
   * `persons.map(person => person.id === returned.id ? returned : person)`:
   * every entry carrying the returned id becomes the returned record, all
   * others stay where they are.
   */
  function ReplaceById(persons: seq<Person>, returned: Person): (r: seq<Person>)
    ensures |r| == |persons|
    ensures forall i :: 0 <= i < |r| ==> r[i].id == persons[i].id
    ensures forall i :: 0 <= i < |r| && persons[i].id == returned.id ==> r[i] == returned
    ensures forall i :: 0 <= i < |r| && persons[i].id != returned.id ==> r[i] == persons[i]
    ensures (forall i :: 0 <= i < |persons| ==> persons[i].id != returned.id) ==> r == persons
    decreases |persons|
  {
    if persons == [] then []
    else
      var head := if persons[0].id == returned.id then returned else persons[0];
      [head] + ReplaceById(persons[1..], returned)
  }

  /** Replacing with the same record a second time changes nothing more. */
  lemma ReplaceByIdIdempotent(persons: seq<Person>, returned: Person)
    ensures ReplaceById(ReplaceById(persons, returned), returned) == ReplaceById(persons, returned)
  {
  }

  /**
   * `persons.filter(person => person.id !== id)`: no entry with that id is
   * left, every other entry is kept as often as before and in its order.
   */
  function RemoveById(persons: seq<Person>, id: Id): (r: seq<Person>)
    ensures forall p :: p in r <==> p in persons && p.id != id
    ensures forall p :: multiset(r)[p] == if p.id == id then 0 else multiset(persons)[p]
    ensures IsSubsequence(r, persons)
    ensures (forall i :: 0 <= i < |persons| ==> persons[i].id != id) ==> r == persons
  {
    var keep := (p: Person) => p.id != id;
    FilterKeepsAll(persons, keep);
    Filter(persons, keep)
  }

  /** The filter test: the lower-cased name contains the lower-cased filter text. */
  predicate Matches(p: Person, filter: string)
    ensures |filter| == 0 ==> Matches(p, filter)
    ensures Matches(p, filter) ==> |filter| <= |p.name|
  {
    Contains(Lower(p.name), Lower(filter))
  }

  /**
   * `personsToShow`: the whole list for an empty filter, otherwise exactly
   * the entries whose name matches, in their order.
   */
  function PersonsToShow(persons: seq<Person>, filter: string): (r: seq<Person>)
    ensures |filter| == 0 ==> r == persons
    ensures |filter| > 0 ==> IsSubsequence(r, persons)
    ensures |filter| > 0 ==> forall p :: p in r <==> p in persons && Matches(p, filter)
    ensures |filter| > 0 ==> forall p :: multiset(r)[p] == if Matches(p, filter) then multiset(persons)[p] else 0
  {
    if |filter| == 0 then persons
    else Filter(persons, (p: Person) => Matches(p, filter))
  }

  /** A match means the lower-cased filter text occurs somewhere in the lower-cased name. */
  lemma MatchesIff(p: Person, filter: string)
    ensures Matches(p, filter) <==> exists k: nat :: OccursAt(Lower(p.name), Lower(filter), k)
  {
    ContainsIff(Lower(p.name), Lower(filter));
    assert Matches(p, filter) == Contains(Lower(p.name), Lower(filter));
  }

  /** The filter ignores the case of the filter text itself. */
  lemma PersonsToShowIgnoresFilterCase(persons: seq<Person>, filter: string)
    ensures PersonsToShow(persons, Lower(filter)) == PersonsToShow(persons, filter)
  {
    if |filter| > 0 {
      LowerIdempotent(filter);
      FilterCongruent(persons, (p: Person) => Matches(p, Lower(filter)), (p: Person) => Matches(p, filter));
    }
  }

  /** The filter text "ana" selects the name "Ana García". */
  lemma AnaMatchesAnaGarcia(id: Id, number: string)
    ensures Matches(Person(id, "Ana García", number), "ana")
  {
    var name := Lower("Ana García");
    assert |name| == 10;
    assert name[0] == LowerChar('A') == 'a';
    assert name[1] == LowerChar('n') && name[2] == LowerChar('a');
    assert name[0..3] == "ana";
    assert Lower("ana") == "ana";
    assert OccursAt(name, "ana", 0);
    ContainsIff(name, "ana");
  }

  /** What `Notification` renders: nothing, or a box with a class and the message. */
  datatype Banner = Banner(className: string, text: string)

  /** `Notification`: nothing without a message, else the message styled as success or error. */
  function NotificationView(message: Option<string>, isSuccess: bool): (r: Option<Banner>)
    ensures r.None? <==> message.None?
    ensures r.Some? ==> r.value.text == message.value
    ensures r.Some? ==> (r.value.className == "success" <==> isSuccess)
    ensures r.Some? ==> (r.value.className == "error" <==> !isSuccess)
  {
    match message
    case None => None
    case Some(text) => Some(Banner(if isSuccess then "success" else "error", text))
  }
}
