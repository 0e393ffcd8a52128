/**
 * The phonebook's REST service (index.js): the route handlers for
 * `/api/persons`, `/api/persons/:id` and `/info`, the `unknownEndpoint`
 * fallback and the `errorHandler` middleware, over a document store modelled
 * as a map from id to contact. The store's schema validators and its
 * id-casting rule live in a module that is not part of this model; they are
 * the two function fields `validate` and `wellFormed`.
 */
module PhonebookServer {
  import opened Wrappers
  import opened Contacts
  import opened Sequences
  import opened Text

  /** A stored document without its key: the `{ name, number }` the handlers write. */
  datatype Contact = Contact(name: string, number: string)

  /** The JSON body of a PUT: the record the client sends, id included. */
  datatype UpdateBody = UpdateBody(id: Id, name: string, number: string)

  /** The errors the store operations reject with, by their `error.name`. */
  datatype StoreError =
    | CastError                              // an id the store cannot cast to its key type
    | ValidationError(message: string)       // a schema validator refused the document
    | OtherError(message: string)            // any other error: passed on to Express

  datatype Body =
    | Record(person: Person)      // response.json(person)
    | Records(persons: seq<Person>)
    | PlainText(text: string)     // response.send(string)
    | ErrorJson(error: string)    // { error: ... }
    | InfoPage(count: nat)        // the /info page; only its count is modelled
    | NoBody                      // response.end()

  datatype Response = Response(status: nat, body: Body)

  /** What a route handler does: send a response, or pass an error on with `next(error)`. */
  datatype Outcome = Sent(response: Response) | Next(error: StoreError)

  /** What leaves the middleware chain: a response, or an error left to Express's default handler. */
  datatype Reply = Answered(response: Response) | Unhandled(error: StoreError)

  /** A request, by the route it matches. */
  datatype Request =
    | ListAll                              // GET /api/persons
    | GetInfo                              // GET /info
    | GetOne(id: Id)                       // GET /api/persons/:id
    | DeleteOne(id: Id)                    // DELETE /api/persons/:id
    | CreateOne(contact: Contact)          // POST /api/persons
    | UpdateOne(pathId: Id, update: UpdateBody) // PUT /api/persons/:id
    | Unmatched                            // any request no route above matches

  function AsPerson(id: Id, c: Contact): Person {
    Person(id, c.name, c.number)
  }

  /** The 404 text of GET by id; it names the requested id. */
  function MissingIdText(id: Id): (r: string)
    ensures Contains(r, id)
  {
    var prefix, suffix := "Infomation of ", " has already been removed from server";
    ContainsInfix(prefix, id, suffix);
    prefix + id + suffix
  }

  /** The 404 text of PUT; it names the person the client tried to update. */
  function MissingNameText(name: string): (r: string)
    ensures Contains(r, name)
  {
    var prefix, suffix := "Infomation of ", " has already been removed from server, please refresh the page";
    ContainsInfix(prefix, name, suffix);
    prefix + name + suffix
  }

  /** `unknownEndpoint`: 404 with `{ error: 'unknown endpoint' }`. */
  function UnknownEndpoint(): (r: Response)
    ensures r.status == 404 && r.body == ErrorJson("unknown endpoint")
  {
    Response(404, ErrorJson("unknown endpoint"))
  }

  /**
   * `errorHandler`: a cast error and a validation error become 400 responses;
   * anything else is passed on (`None`).
   */
  function ErrorHandler(e: StoreError): (r: Option<Response>)
    ensures r.Some? <==> !e.OtherError?
    ensures r.Some? ==> r.value.status == 400 && r.value.body.ErrorJson?
    ensures e.CastError? ==> r.value.body.error == "malformatted id"
    ensures e.ValidationError? ==> r.value.body.error == e.message
  {
    match e
    case CastError => Some(Response(400, ErrorJson("malformatted id")))
    case ValidationError(message) => Some(Response(400, ErrorJson(message)))
    case OtherError(_) => None
  }

  /** The rest of the chain after a route handler: a sent response stands, an error goes to `errorHandler`. */
  function Finish(o: Outcome): (r: Reply)
    ensures o.Sent? ==> r == Answered(o.response)
    ensures o.Next? ==> (r.Answered? <==> ErrorHandler(o.error).Some?)
    ensures o.Next? && r.Answered? ==> r.response.status == 400
    ensures r.Unhandled? ==> o == Next(r.error)
  {
    match o
    case Sent(response) => Answered(response)
    case Next(error) =>
      match ErrorHandler(error)
      case Some(response) => Answered(response)
      case None => Unhandled(error)
  }

  class PersonStore {
    /** The collection, keyed by id. */
    var records: map<Id, Contact>
    /** The store's natural order of the collection: ids in insertion order. */
    var order: seq<Id>
    /** Whether an id can be cast to the store's key type; any other id raises a CastError. */
    const wellFormed: Id -> bool
    /** The schema validators: `None` accepts a document, `Some(message)` refuses it. */
    const validate: Contact -> Option<string>

    /** Each stored id is listed once in `order`, is well formed, and its record passed validation. */
    ghost predicate Valid()
      reads this
    {
      && Distinct(order)
      && (forall id :: id in records <==> id in order)
      && (forall id :: id in records ==> wellFormed(id) && validate(records[id]).None?)
    }

    constructor (wellFormed: Id -> bool, validate: Contact -> Option<string>)
      ensures Valid()
      ensures records == map[] && order == []
      ensures this.wellFormed == wellFormed && this.validate == validate
    {
      records := map[];
      order := [];
      this.wellFormed := wellFormed;
      this.validate := validate;
    }

    /** `Person.find({})`: every stored record exactly once, in the store's order. */
    method FindAll() returns (r: seq<Person>)
      requires Valid()
      ensures |r| == |order| && |order| == |records|
      ensures forall i :: 0 <= i < |r| ==> r[i].id == order[i]
      ensures forall p :: p in r <==> p.id in records && records[p.id] == Contact(p.name, p.number)
    {
      r := [];
      var i := 0;
      while i < |order|
        invariant 0 <= i <= |order|
        invariant |r| == i
        invariant forall k :: 0 <= k < i ==> order[k] in records && r[k] == AsPerson(order[k], records[order[k]])
      {
        var id := order[i];
        r := r + [AsPerson(id, records[id])];
        i := i + 1;
      }
      DistinctCardinality(order);
      assert records.Keys == set id | id in order;
      forall p: Person | p.id in records && records[p.id] == Contact(p.name, p.number)
        ensures p in r
      {
        var k :| 0 <= k < |order| && order[k] == p.id;
        assert r[k] == p;
      }
    }

    /** GET /api/persons: 200 with every stored record. */
    method ListAll() returns (res: Response)
      requires Valid()
      ensures res.status == 200 && res.body.Records?
      ensures |res.body.persons| == |records|
      ensures forall p :: p in res.body.persons <==> p.id in records && records[p.id] == Contact(p.name, p.number)
    {
      var persons := FindAll();
      res := Response(200, Records(persons));
    }

    /** GET /info: the page reports how many records are stored. */
    method Info() returns (res: Response)
      requires Valid()
      ensures res == Response(200, InfoPage(|records|))
    {
      var persons := FindAll();
      res := Response(200, InfoPage(|persons|));
    }

    /**
     * GET /api/persons/:id: the stored record, or 404 with a message naming
     * the id; an id the store cannot cast is a CastError.
     */
    function GetById(id: Id): (o: Outcome)
      reads this
      ensures !wellFormed(id) ==> o == Next(CastError)
      ensures wellFormed(id) && id in records ==>
        o.Sent? && o.response.status == 200 && o.response.body == Record(AsPerson(id, records[id]))
      ensures wellFormed(id) && id !in records ==>
        o.Sent? && o.response.status == 404 && o.response.body == PlainText(MissingIdText(id))
        && Contains(o.response.body.text, id)
    {
      if !wellFormed(id) then Next(CastError)
      else if id in records then Sent(Response(200, Record(AsPerson(id, records[id]))))
      else
        Sent(Response(404, PlainText(MissingIdText(id))))
    }

    /** The store's order with one id taken out. */
    static function Without(s: seq<Id>, id: Id): (r: seq<Id>)
      ensures forall x :: x in r <==> x in s && x != id
      ensures forall x :: multiset(r)[x] == if x == id then 0 else multiset(s)[x]
      ensures IsSubsequence(r, s)
    {
      Filter(s, (x: Id) => x != id)
    }

    /**
     * DELETE /api/persons/:id: 204 whether or not the id was stored; the id
     * is gone afterwards and every other record is untouched. An id the
     * store cannot cast is a CastError and changes nothing.
     */
    method Delete(id: Id) returns (o: Outcome)
      requires Valid()
      modifies this
      ensures Valid()
      ensures !wellFormed(id) ==> o == Next(CastError) && records == old(records) && order == old(order)
      ensures wellFormed(id) ==> o == Sent(Response(204, NoBody))
      ensures wellFormed(id) ==> records == old(records) - {id} && order == Without(old(order), id)
    {
      if !wellFormed(id) {
        return Next(CastError);
      }
      records := records - {id};
      order := Without(order, id);
      o := Sent(Response(204, NoBody));
    }

    /**
     * POST /api/persons: a body the validators accept is stored under the
     * fresh id the store assigns, and the stored record is returned with
     * 200; a refused body is a ValidationError and changes nothing.
     */
    method Create(body: Contact, freshId: Id) returns (o: Outcome)
      requires Valid()
      requires freshId !in records && wellFormed(freshId)
      modifies this
      ensures Valid()
      ensures validate(body).Some? ==>
        o == Next(ValidationError(validate(body).value)) && records == old(records) && order == old(order)
      ensures validate(body).None? ==>
        && o == Sent(Response(200, Record(AsPerson(freshId, body))))
        && records == old(records)[freshId := body]
        && order == old(order) + [freshId]
    {
      match validate(body)
      case Some(message) =>
        o := Next(ValidationError(message));
      case None =>
        records := records[freshId := body];
        order := order + [freshId];
        o := Sent(Response(200, Record(AsPerson(freshId, body))));
    }

    /**
     * PUT /api/persons/:id: looks the record up by `body.id` (the path id is
     * not used). The id is cast first, then the update validators run, then
     * the record is replaced and returned with 200, or 404 is sent with a
     * message naming `body.name` when no record has that id.
     */
    method Update(pathId: Id, body: UpdateBody) returns (o: Outcome)
      requires Valid()
      modifies this
      ensures Valid()
      ensures order == old(order)
      ensures !wellFormed(body.id) ==> o == Next(CastError) && records == old(records)
      ensures wellFormed(body.id) && validate(Contact(body.name, body.number)).Some? ==>
        o == Next(ValidationError(validate(Contact(body.name, body.number)).value)) && records == old(records)
      ensures wellFormed(body.id) && validate(Contact(body.name, body.number)).None? && body.id in old(records) ==>
        && o == Sent(Response(200, Record(Person(body.id, body.name, body.number))))
        && records == old(records)[body.id := Contact(body.name, body.number)]
      ensures wellFormed(body.id) && validate(Contact(body.name, body.number)).None? && body.id !in old(records) ==>
        && o == Sent(Response(404, PlainText(MissingNameText(body.name))))
        && Contains(o.response.body.text, body.name)
        && records == old(records)
    {
      var person := Contact(body.name, body.number);
      if !wellFormed(body.id) {
        return Next(CastError);
      }
      match validate(person)
      case Some(message) =>
        o := Next(ValidationError(message));
      case None =>
        if body.id in records {
          records := records[body.id := person];
          o := Sent(Response(200, Record(AsPerson(body.id, person))));
        } else {
          o := Sent(Response(404, PlainText(MissingNameText(body.name))));
        }
    }

    /**
     * The whole middleware chain for one request: the matching route, then
     * `errorHandler` for an error it passes on, with `unknownEndpoint` as
     * the fallback. Every error a route raises is one `errorHandler`
     * answers, so every request gets a response.
     */
    method Handle(req: Request, freshId: Id) returns (r: Reply)
      requires Valid()
      requires req.CreateOne? ==> freshId !in records && wellFormed(freshId)
      modifies this
      ensures Valid()
      ensures r.Answered?
      ensures r.response.status in {200, 204, 400, 404}
      ensures req.Unmatched? ==> r == Answered(UnknownEndpoint())
      ensures req.GetOne? ==> r == Finish(old(GetById(req.id)))
      ensures req.ListAll? || req.GetInfo? || req.GetOne? || req.Unmatched? ==>
        records == old(records) && order == old(order)
    {
      match req
      case ListAll =>
        var res := ListAll();
        r := Answered(res);
      case GetInfo =>
        var res := Info();
        r := Answered(res);
      case GetOne(id) =>
        r := Finish(GetById(id));
      case DeleteOne(id) =>
        var o := Delete(id);
        r := Finish(o);
      case CreateOne(body) =>
        var o := Create(body, freshId);
        r := Finish(o);
      case UpdateOne(pathId, body) =>
        var o := Update(pathId, body);
        r := Finish(o);
      case Unmatched =>
        r := Answered(UnknownEndpoint());
    }
  }
}
