/**
 * Scenarios of the two components, proved from the contracts alone: they
 * show the contracts fix the observable outcome of each step.
 */
module Scenarios {
  import opened Wrappers
  import opened Contacts
  import opened PersonList
  import PhonebookClient
  import S = PhonebookServer

  /** A validator that refuses an empty name or number. */
  function RequireBoth(c: S.Contact): Option<string> {
    if c.name == "" || c.number == "" then Some("name and number are required") else None
  }

  /**
   * For any store, accepted body and fresh id: POST, then GET by the
   * assigned id answers 200 with the body under that id, and LIST holds it.
   */
  method ServerCreateThenGet(store: S.PersonStore, body: S.Contact, freshId: Id)
    returns (created: S.Outcome, got: S.Outcome, listed: S.Response)
    requires store.Valid()
    requires freshId !in store.records && store.wellFormed(freshId)
    requires store.validate(body).None?
    modifies store
    ensures created == got == S.Sent(S.Response(200, S.Record(S.AsPerson(freshId, body))))
    ensures listed.body.Records? && S.AsPerson(freshId, body) in listed.body.persons
  {
    created := store.Create(body, freshId);
    got := store.GetById(freshId);
    listed := store.ListAll();
  }

  /** An empty name is refused with 400 and stores nothing. */
  method ServerRefusesEmptyName() {
    var store := new S.PersonStore((id: Id) => true, RequireBoth);
    var bad := S.Contact("", "040");
    assert store.validate(bad) == Some("name and number are required");
    var refused := store.Create(bad, "2");
    assert S.Finish(refused) == S.Answered(S.Response(400, S.ErrorJson("name and number are required")));
    assert store.records == map[];
  }

  /** Deleting the same id twice answers 204 both times and leaves it absent. */
  method ServerDeleteTwice(store: S.PersonStore, id: Id)
    requires store.Valid() && store.wellFormed(id)
    modifies store
  {
    var first := store.Delete(id);
    var second := store.Delete(id);
    assert first == second == S.Sent(S.Response(204, S.NoBody));
    assert id !in store.records;
  }

  /** A listed name confirmed for replacement gets the new number. */
  method ClientReplace() {
    var app := new PhonebookClient.AppState();
    app.Load([Person("1", "Ada", "1")]);
    app.SetNewName("Ada");
    app.SetNewNumber("2");
    assert IndexOfName(app.persons, "Ada") == Some(0);
    var sent := app.AddPerson(true, PhonebookClient.Saved(Person("1", "Ada", "2")));
    assert sent == Some(PhonebookClient.Update("1", Person("1", "Ada", "2")));
    assert app.persons[0].number == "2";
  }

  /** The clear scheduled by a success removes a later error message. */
  method ClientStaleClear() {
    var app := new PhonebookClient.AppState();
    app.SetNewName("Ada");
    assert IndexOfName([], "Ada") == None;
    var _ := app.AddPerson(false, PhonebookClient.Saved(Person("1", "Ada", "")));
    assert app.pendingClears == [5000];
    app.Load([]);
    var _ := app.AddPerson(false, PhonebookClient.Rejected("number missing"));
    assert app.resultMessage == Some("number missing") && !app.isSuccess;
    assert app.pendingClears == [5000, 15000];
    app.RunClear(0);
    assert app.resultMessage == None && app.pendingClears == [15000];
  }
}
