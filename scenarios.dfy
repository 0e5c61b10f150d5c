/** Short sequences of calls and what each promises about the next. */
module Scenarios {
  import opened Assets
  import opened Contract

  /** A second create of the same id is rejected and leaves the first
      election in place. */
  lemma CreateTwice(l: Ledger, id: string, name: string, description: string, name': string, description': string)
    requires !Exists(l, id)
    ensures Create(l, id, name, description).Ok?
    ensures Create(Create(l, id, name, description).value, id, name', description') == Err(AlreadyExists(id))
    ensures Create(l, id, name, description).value[id] == Object(ToFields(Election(id, name, description)))
  {
  }

  /** Reading a fresh election gives back exactly what create wrote. */
  lemma ReadAfterCreate(l: Ledger, id: string, name: string, description: string)
    requires !Exists(l, id)
    ensures Create(l, id, name, description).Ok?
    ensures Read(Create(l, id, name, description).value, id) == Ok(ToFields(Election(id, name, description)))
  {
  }

  /** Updating a fresh election keeps its id and replaces the rest. */
  lemma UpdateAfterCreate(l: Ledger, id: string, name: string, description: string, name': string, description': string)
    requires !Exists(l, id)
    ensures Create(l, id, name, description).Ok?
    ensures Update(Create(l, id, name, description).value, id, name', description').Ok?
    ensures Read(Update(Create(l, id, name, description).value, id, name', description').value, id)
            == Ok(ToFields(Election(id, name', description')))
  {
    var l1 := Create(l, id, name, description).value;
    var l2 := Update(l1, id, name', description').value;
    assert l2[id].fields == ToFields(Election(id, name', description'));
  }

  /** After a delete every guarded call on the same id fails as not found. */
  lemma DeleteThenNotFound(l: Ledger, id: string, name: string, description: string)
    requires Exists(l, id)
    ensures Delete(l, id).Ok?
    ensures !Exists(Delete(l, id).value, id)
    ensures Read(Delete(l, id).value, id) == Err(NotFound(id))
    ensures Update(Delete(l, id).value, id, name, description) == Err(NotFound(id))
    ensures Delete(Delete(l, id).value, id) == Err(NotFound(id))
  {
  }

  /** The world state the unit tests start from: two elections stored with
      a name only. */
  function Fixture(): Ledger
  {
    map["1001" := Object(map["name" := "election 1001 value"]),
        "1002" := Object(map["name" := "election 1002 value"])]
  }

  /** electionExists on the unit tests' world state. */
  lemma FixtureExists()
    ensures Exists(Fixture(), "1001") && !Exists(Fixture(), "1003")
  {
  }

  /** createElection on the unit tests' world state: the write the code
      makes for a new id (id, name and description), and the rejection of a
      stored one. */
  lemma FixtureCreate()
    ensures Create(Fixture(), "1003", "election 1003 value", "New Election")
            == Ok(Fixture()["1003" := Object(map["id" := "1003", "name" := "election 1003 value",
                                                 "description" := "New Election"])])
    ensures Create(Fixture(), "1001", "myvalue", "Older Election") == Err(AlreadyExists("1001"))
  {
  }

  /** The messages the unit tests match for 1001 and 1003. */
  lemma FixtureMessages()
    ensures Message(AlreadyExists("1001")) == "The election 1001 already exists"
    ensures Message(NotFound("1003")) == "The election 1003 does not exist"
  {
  }

  /** readElection on the unit tests' world state. */
  lemma FixtureRead()
    ensures Read(Fixture(), "1001") == Ok(map["name" := "election 1001 value"])
    ensures Read(Fixture(), "1003") == Err(NotFound("1003"))
  {
  }

  /** updateElection on the unit tests' world state: the stored object keeps
      its one property and gains a description. */
  lemma FixtureUpdate()
    ensures Update(Fixture(), "1001", "election 1001 new value", "Changed Now")
            == Ok(Fixture()["1001" := Object(map["name" := "election 1001 new value",
                                                 "description" := "Changed Now"])])
    ensures Update(Fixture(), "1003", "election 1003 new value", "Older Now") == Err(NotFound("1003"))
  {
    assert "name" != "description";
    assert map["name" := "election 1001 value"]["name" := "election 1001 new value"]["description" := "Changed Now"]
           == map["name" := "election 1001 new value", "description" := "Changed Now"];
  }

  /** deleteElection on the unit tests' world state. */
  lemma FixtureDelete()
    ensures Delete(Fixture(), "1001") == Ok(map["1002" := Object(map["name" := "election 1002 value"])])
    ensures Delete(Fixture(), "1003") == Err(NotFound("1003"))
  {
    assert Fixture() - {"1001"} == map["1002" := Object(map["name" := "election 1002 value"])];
  }

  /** The same life of one election, driven through the contract object. */
  method ElectionLife()
  {
    var contract := new ElectionContract(map[]);
    var created := contract.CreateElection("1003", "election 1003 value", "New Election");
    assert created == Pass;
    var again := contract.CreateElection("1003", "other", "other");
    assert again == Fail(AlreadyExists("1003"));
    var updated := contract.UpdateElection("1003", "v2", "d2");
    assert updated == Pass;
    var read := contract.ReadElection("1003");
    UpdateAfterCreate(map[], "1003", "election 1003 value", "New Election", "v2", "d2");
    assert read == Ok(ToFields(Election("1003", "v2", "d2")));
    var deleted := contract.DeleteElection("1003");
    assert deleted == Pass;
    read := contract.ReadElection("1003");
    assert read == Err(NotFound("1003"));
  }
}
