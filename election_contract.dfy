/** The election contract: create, read, update and delete elections kept in
    the ledger's world state, one key per election id. */
module Contract {
  import opened Assets

  /** What the contract finds under a key of the world state. Bytes that
      JSON.parse turns into a flat object of string properties are kept as
      those properties; any other bytes (bytes JSON.parse rejects, bytes
      whose value is not a flat object of strings, the empty buffer) only by
      their length. */
  datatype Blob = Object(fields: Fields) | Opaque(size: nat)

  /** The world state: election id to stored bytes. */
  type Ledger = map<string, Blob>

  /** Why a transaction was rejected. */
  datatype Error =
    | AlreadyExists(id: string)
    | NotFound(id: string)
    | Corrupt(id: string)   // the stored bytes are not a flat object of strings

  datatype Result<T> = Ok(value: T) | Err(error: Error)

  /** How a transaction that returns nothing ends. */
  datatype Outcome = Pass | Fail(error: Error)

  /** The message of the Error the contract throws for a failed guard. A
      Corrupt election fails in the JavaScript runtime (JSON.parse, or the
      property assignment in updateElection), whose message is its own. */
  function Message(e: Error): (m: string)
    requires !e.Corrupt?
    ensures "The election " + e.id + " " <= m
    ensures m[|"The election " + e.id + " "|..]
            == if e.AlreadyExists? then "already exists" else "does not exist"
  {
    match e
    case AlreadyExists(id) => "The election " + id + " already exists"
    case NotFound(id) => "The election " + id + " does not exist"
  }

  /** part occurs in s at position k. */
  ghost predicate OccursAt(s: string, part: string, k: nat)
  {
    k + |part| <= |s| && s[k..k + |part|] == part
  }

  /** part occurs somewhere in s, as a regular expression of part matches. */
  ghost predicate Contains(s: string, part: string)
  {
    exists k: nat :: OccursAt(s, part, k)
  }

  /** The message names the election and says which guard failed. */
  lemma MessageNamesElection(e: Error)
    requires !e.Corrupt?
    ensures Contains(Message(e), e.id)
    ensures Contains(Message(e), if e.AlreadyExists? then "already exists" else "does not exist")
  {
    var head := "The election " + e.id + " ";
    var tail := if e.AlreadyExists? then "already exists" else "does not exist";
    assert Message(e) == head + tail;
    assert OccursAt(Message(e), e.id, |"The election "|);
    assert OccursAt(Message(e), tail, |head|);
  }

  /** The bytes getState returns: an absent key reads as the empty buffer. */
  function GetState(l: Ledger, id: string): (b: Blob)
    ensures id in l ==> b == l[id]
    ensures id !in l ==> b == Opaque(0) && !NonEmpty(b)
  {
    if id in l then l[id] else Opaque(0)
  }

  /** Whether the bytes are non-empty: the JSON text of an object is at
      least "{}", so an object always is. */
  predicate NonEmpty(b: Blob)
  {
    b.Object? || b.size > 0
  }

  /** electionExists: the world state holds non-empty bytes under id. */
  predicate Exists(l: Ledger, id: string): (present: bool)
    ensures present <==> id in l && (l[id].Object? || l[id].size > 0)
  {
    NonEmpty(GetState(l, id))
  }

  /** The two ledgers agree on every key but id. */
  ghost predicate SameExcept(l: Ledger, l': Ledger, id: string)
  {
    forall k :: k != id ==> (k in l <==> k in l') && (k in l ==> l'[k] == l[k])
  }

  /** The properties updateElection leaves behind: name and description
      replaced, every other property present exactly as before. */
  ghost predicate Patched(before: Fields, after: Fields, name: string, description: string)
  {
    && "name" in after && after["name"] == name
    && "description" in after && after["description"] == description
    && forall k :: k != "name" && k != "description" ==>
         (k in after <==> k in before) && (k in before ==> after[k] == before[k])
  }

  /** createElection as a transition of the world state. */
  function Create(l: Ledger, id: string, name: string, description: string): (r: Result<Ledger>)
    ensures r.Err? <==> Exists(l, id)
    ensures r.Err? ==> r.error == AlreadyExists(id)
    ensures r.Ok? ==> Exists(r.value, id)
    ensures r.Ok? ==> GetState(r.value, id) == Object(ToFields(Election(id, name, description)))
    ensures r.Ok? ==> SameExcept(l, r.value, id)
  {
    if Exists(l, id) then Err(AlreadyExists(id))
    else Ok(l[id := Object(ToFields(Election(id, name, description)))])
  }

  /** readElection: the stored object, as it is stored. */
  function Read(l: Ledger, id: string): (r: Result<Fields>)
    ensures r.Ok? <==> GetState(l, id).Object?
    ensures r.Ok? ==> Exists(l, id) && l[id] == Object(r.value)
    ensures r.Err? ==> r.error == (if Exists(l, id) then Corrupt(id) else NotFound(id))
  {
    if !Exists(l, id) then Err(NotFound(id))
    else match GetState(l, id)
      case Object(fields) => Ok(fields)
      case Opaque(_) => Err(Corrupt(id))
  }

  /** updateElection as a transition: read, replace name and description,
      write back under the same key. */
  function Update(l: Ledger, id: string, name: string, description: string): (r: Result<Ledger>)
    ensures r.Ok? <==> GetState(l, id).Object?
    ensures r.Err? ==> r.error == (if Exists(l, id) then Corrupt(id) else NotFound(id))
    ensures r.Ok? ==> Exists(r.value, id)
    ensures r.Ok? ==> GetState(r.value, id).Object?
                      && Patched(l[id].fields, r.value[id].fields, name, description)
    ensures r.Ok? ==> SameExcept(l, r.value, id)
  {
    if !Exists(l, id) then Err(NotFound(id))
    else match GetState(l, id)
      case Object(fields) => Ok(l[id := Object(fields["name" := name]["description" := description])])
      case Opaque(_) => Err(Corrupt(id))
  }

  /** deleteElection as a transition of the world state. */
  function Delete(l: Ledger, id: string): (r: Result<Ledger>)
    ensures r.Err? <==> !Exists(l, id)
    ensures r.Err? ==> r.error == NotFound(id)
    ensures r.Ok? ==> id !in r.value && !Exists(r.value, id)
    ensures r.Ok? ==> SameExcept(l, r.value, id)
  {
    if !Exists(l, id) then Err(NotFound(id)) else Ok(l - {id})
  }

  /** The contract bound to a world state. Each method checks existence,
      applies its guard and then writes or deletes at most once. */
  class ElectionContract {
    var ledger: Ledger

    constructor (worldState: Ledger)
      ensures ledger == worldState
    {
      ledger := worldState;
    }

    method ElectionExists(id: string) returns (present: bool)
      ensures present <==> Exists(ledger, id)
    {
      var buffer := GetState(ledger, id);
      present := buffer.Object? || buffer.size > 0;
    }

    method CreateElection(id: string, name: string, description: string) returns (r: Outcome)
      modifies this
      ensures r.Fail? ==> Create(old(ledger), id, name, description) == Err(r.error)
      ensures r.Fail? ==> ledger == old(ledger)
      ensures r.Pass? ==> Create(old(ledger), id, name, description) == Ok(ledger)
    {
      var present := ElectionExists(id);
      if present {
        return Fail(AlreadyExists(id));
      }
      var election := Election(id, name, description);
      ledger := ledger[id := Object(ToFields(election))];
      r := Pass;
    }

    method ReadElection(id: string) returns (r: Result<Fields>)
      ensures r == Read(ledger, id)
    {
      var present := ElectionExists(id);
      if !present {
        return Err(NotFound(id));
      }
      var buffer := GetState(ledger, id);
      if buffer.Opaque? {
        return Err(Corrupt(id));
      }
      r := Ok(buffer.fields);
    }

    method UpdateElection(id: string, name: string, description: string) returns (r: Outcome)
      modifies this
      ensures r.Fail? ==> Update(old(ledger), id, name, description) == Err(r.error)
      ensures r.Fail? ==> ledger == old(ledger)
      ensures r.Pass? ==> Update(old(ledger), id, name, description) == Ok(ledger)
    {
      var present := ElectionExists(id);
      if !present {
        return Fail(NotFound(id));
      }
      var oldBuffer := GetState(ledger, id);
      if oldBuffer.Opaque? {
        return Fail(Corrupt(id));
      }
      var election := oldBuffer.fields;
      election := election["name" := name];
      election := election["description" := description];
      ledger := ledger[id := Object(election)];
      r := Pass;
    }

    method DeleteElection(id: string) returns (r: Outcome)
      modifies this
      ensures r.Fail? ==> Delete(old(ledger), id) == Err(r.error)
      ensures r.Fail? ==> ledger == old(ledger)
      ensures r.Pass? ==> Delete(old(ledger), id) == Ok(ledger)
    {
      var present := ElectionExists(id);
      if !present {
        return Fail(NotFound(id));
      }
      ledger := ledger - {id};
      r := Pass;
    }
  }
}
