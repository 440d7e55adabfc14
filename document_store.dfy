/**
 * The document tools of the Mongo tool server: one database per user id,
 * named collections of documents, and the schema guard that infers a
 * collection's schema from its first document and checks inserts against it.
 *
 * The database engine is abstract: a collection is the sequence of its
 * documents in natural order, `find_one()` is the first of them, a filter is
 * an opaque predicate on documents and `$set` is map override. Stored
 * documents carry no `_id` here: the engine's id assignment is not modelled.
 */
module DocumentStore {
  import opened Values
  import Optional

  type Doc = map<string, Value>

  /** A filter query, abstracted to the set of documents it matches. */
  type Filter = Doc -> bool

  /** The field the engine reserves for document ids. */
  const IdField := "_id"

  // ---------------------------------------------------------------------
  // Schema guard (pure)
  // ---------------------------------------------------------------------

  /** `default_value_for_type`: the zero value used to fill a schema field
      an insert omits. */
  function DefaultValueForType(t: TypeTag): (v: Value)
    ensures !Truthy(v)
    ensures t != StrType && !t.OtherType? ==> TypeOf(v) == t
    ensures t == StrType || t.OtherType? ==> v == Str("")
  {
    match t
    case IntType => Int(0)
    case FloatType => Float(0.0)
    case BoolType => Bool(false)
    case ListType => List([])
    case DictType => Dict(map[])
    case _ => Str("")
  }

  /** The fields that make up a collection's schema: the sample's keys
      without `_id`. */
  function SchemaKeys(sample: Doc): set<string> {
    sample.Keys - {IdField}
  }

  /** The schema dictionary `get_collection_schema` returns: each schema
      field mapped to its value's type name. */
  function SchemaOf(sample: Doc): (schema: map<string, string>)
    ensures schema.Keys == SchemaKeys(sample)
  {
    map k | k in SchemaKeys(sample) :: TypeName(TypeOf(sample[k]))
  }

  /** Fields of `data` the schema does not know (`extra_keys`). */
  function ExtraKeys(sample: Doc, data: Doc): (extra: set<string>)
    ensures extra <= data.Keys
    ensures forall k :: k in data ==> (k in extra <==> k == IdField || k !in sample)
  {
    data.Keys - SchemaKeys(sample)
  }

  /** Fields present in both whose exact Python types differ. */
  function Mismatched(sample: Doc, data: Doc): (fields: set<string>)
    ensures fields <= data.Keys && fields <= sample.Keys
    ensures forall k :: k in data && k in sample ==> (k in fields <==> TypeOf(data[k]) != TypeOf(sample[k]))
  {
    set k | k in data && k in sample && TypeOf(data[k]) != TypeOf(sample[k])
  }

  /** `full_data`: every schema field, taken from `data` when present and
      defaulted from the sample's type otherwise. */
  function FullData(sample: Doc, data: Doc): (full: Doc)
    ensures full.Keys == SchemaKeys(sample)
  {
    map k | k in SchemaKeys(sample) :: if k in data then data[k] else DefaultValueForType(TypeOf(sample[k]))
  }

  /** What the schema guard decides about inserting `data` into a collection
      holding `docs`. */
  datatype Verdict =
    | Accept(doc: Doc)
    | UnknownFields(extra: set<string>)
    | TypeMismatches(fields: set<string>)

  /** The schema guard of `insert_to_collection`: the first document of a
      non-empty collection is the sample. */
  function Validate(docs: seq<Doc>, data: Doc): (v: Verdict)
    ensures docs == [] ==> v == Accept(data)
    ensures v.UnknownFields? ==> docs != [] && v.extra == ExtraKeys(docs[0], data) && v.extra != {}
    ensures v.TypeMismatches? ==> docs != [] && v.fields == Mismatched(docs[0], data) && v.fields != {}
    ensures docs != [] && v.Accept? ==> v.doc.Keys == SchemaKeys(docs[0]) && data.Keys <= v.doc.Keys
  {
    if docs == [] then Accept(data)
    else if ExtraKeys(docs[0], data) != {} then UnknownFields(ExtraKeys(docs[0], data))
    else if Mismatched(docs[0], data) != {} then TypeMismatches(Mismatched(docs[0], data))
    else Accept(FullData(docs[0], data))
  }

  /** An insert into an empty collection stores the data verbatim. */
  lemma EmptyCollectionAcceptsVerbatim(data: Doc)
    ensures Validate([], data) == Accept(data)
  {
  }

  /** An insert is refused with UnknownFields exactly when the collection has
      a sample and the data has a key outside the sample's keys minus `_id`;
      it is refused with TypeMismatches exactly when, short of that, some
      shared key's value has a different exact type. */
  lemma {:induction false} ValidateRefusals(docs: seq<Doc>, data: Doc)
    ensures Validate(docs, data).UnknownFields? <==>
              docs != [] && exists k :: k in data && (k == IdField || k !in docs[0])
    ensures Validate(docs, data).TypeMismatches? <==>
              docs != [] && data.Keys <= SchemaKeys(docs[0]) &&
              exists k :: k in data && TypeOf(data[k]) != TypeOf(docs[0][k])
  {
    if docs != [] {
      var s := docs[0];
      if exists k :: k in data && (k == IdField || k !in s) {
        var k :| k in data && (k == IdField || k !in s);
        assert k in ExtraKeys(s, data);
      }
      if ExtraKeys(s, data) == {} && exists k :: k in data && TypeOf(data[k]) != TypeOf(s[k]) {
        var k :| k in data && TypeOf(data[k]) != TypeOf(s[k]);
        assert k in Mismatched(s, data);
      }
      if ExtraKeys(s, data) != {} {
        var k :| k in ExtraKeys(s, data);
        assert k in data && (k == IdField || k !in s);
      }
      if Mismatched(s, data) != {} {
        var k :| k in Mismatched(s, data);
        assert k in data && TypeOf(data[k]) != TypeOf(s[k]);
      }
    }
  }

  /** An accepted insert into a non-empty collection stores one document
      whose keys are exactly the schema fields; the caller's values are kept
      and each omitted field holds the default for the sample value's type. */
  lemma {:induction false} AcceptedInsertShape(docs: seq<Doc>, data: Doc)
    requires docs != [] && Validate(docs, data).Accept?
    ensures var d := Validate(docs, data).doc;
      && d.Keys == SchemaKeys(docs[0])
      && (forall k :: k in data ==> k in d && d[k] == data[k])
      && (forall k :: k in d && k !in data ==> d[k] == DefaultValueForType(TypeOf(docs[0][k])))
  {
    var s := docs[0];
    assert ExtraKeys(s, data) == {};
    forall k | k in data ensures k in SchemaKeys(s) {
      assert k !in ExtraKeys(s, data);
    }
  }

  /** Reading back an accepted insert gives every schema field with the
      sample's type, except a field of a type outside the six builtin ones
      that the caller omitted, which holds "" (the default "for str and
      others"). When the sample has no such field the schema is unchanged. */
  lemma {:induction false} AcceptedInsertKeepsSchema(docs: seq<Doc>, data: Doc)
    requires docs != [] && Validate(docs, data).Accept?
    ensures var d := Validate(docs, data).doc;
      forall k :: k in d ==>
        TypeOf(d[k]) == TypeOf(docs[0][k]) || (TypeOf(docs[0][k]).OtherType? && k !in data && d[k] == Str(""))
    ensures (forall k :: k in SchemaKeys(docs[0]) ==> !TypeOf(docs[0][k]).OtherType?) ==>
      SchemaOf(Validate(docs, data).doc) == SchemaOf(docs[0])
  {
    var s := docs[0];
    var d := Validate(docs, data).doc;
    assert Mismatched(s, data) == {};
    forall k | k in d
      ensures TypeOf(d[k]) == TypeOf(s[k]) || (TypeOf(s[k]).OtherType? && k !in data && d[k] == Str(""))
    {
      if k in data {
        assert k !in Mismatched(s, data);
      }
    }
    if forall k :: k in SchemaKeys(s) ==> !TypeOf(s[k]).OtherType? {
      assert SchemaKeys(d) == SchemaKeys(s);
      forall k | k in SchemaKeys(s) ensures SchemaOf(d)[k] == SchemaOf(s)[k] {
        assert TypeOf(d[k]) == TypeOf(s[k]);
      }
    }
  }

  // ---------------------------------------------------------------------
  // Schema extension, filters (pure)
  // ---------------------------------------------------------------------

  /** `$set` of `fields` on one document. */
  function SetFields(d: Doc, fields: Doc): (r: Doc)
    ensures r.Keys == d.Keys + fields.Keys
    ensures forall k :: k in fields ==> r[k] == fields[k]
    ensures forall k :: k in d && k !in fields ==> r[k] == d[k]
  {
    d + fields
  }

  /** `update_many({}, {"$set": fields})` */
  function SetFieldsOnAll(docs: seq<Doc>, fields: Doc): (r: seq<Doc>)
    ensures |r| == |docs|
    ensures forall i :: 0 <= i < |docs| ==> r[i] == SetFields(docs[i], fields)
  {
    seq(|docs|, i requires 0 <= i < |docs| => SetFields(docs[i], fields))
  }

  /** The documents of a collection after `update_collection_schema_fields`:
      every document gets the new fields, or an empty collection is seeded
      with one document equal to them. */
  function SchemaExtended(docs: seq<Doc>, fields: Doc): (r: seq<Doc>)
    ensures r != []
  {
    if docs == [] then [fields] else SetFieldsOnAll(docs, fields)
  }

  /** Applying the same schema extension twice leaves the same documents as
      applying it once. */
  lemma {:induction false} SchemaExtensionIdempotent(docs: seq<Doc>, fields: Doc)
    ensures SchemaExtended(SchemaExtended(docs, fields), fields) == SchemaExtended(docs, fields)
  {
    var once := SchemaExtended(docs, fields);
    var twice := SchemaExtended(once, fields);
    assert |twice| == |once|;
    forall i | 0 <= i < |once| ensures twice[i] == once[i] {
      if docs == [] {
        assert once[i] == fields;
      } else {
        assert once[i] == docs[i] + fields;
      }
      assert twice[i] == once[i] + fields;
    }
  }

  /** After a schema extension, an insert no longer meets the extended
      fields as unknown: the unknown fields are those of the old sample minus
      the added ones (or, for an empty collection, those outside the new
      fields). */
  lemma {:induction false} ExtensionAdmitsNewFields(docs: seq<Doc>, fields: Doc, data: Doc)
    ensures var base := if docs == [] then map[] else docs[0];
      ExtraKeys(SchemaExtended(docs, fields)[0], data) == ExtraKeys(base, data) - (fields.Keys - {IdField})
  {
  }

  /** The documents a filter selects, in natural order. */
  function Matching(docs: seq<Doc>, f: Filter): (r: seq<Doc>)
    ensures forall i :: 0 <= i < |r| ==> f(r[i])
    ensures |r| <= |docs|
    decreases |docs|
  {
    if docs == [] then []
    else (if f(docs[0]) then [docs[0]] else []) + Matching(docs[1..], f)
  }

  /** The documents a filter does not select, in natural order. */
  function Unmatched(docs: seq<Doc>, f: Filter): (r: seq<Doc>)
    ensures forall i :: 0 <= i < |r| ==> !f(r[i])
    decreases |docs|
  {
    if docs == [] then []
    else (if f(docs[0]) then [] else [docs[0]]) + Unmatched(docs[1..], f)
  }

  /** Matching and non-matching documents together are the collection,
      counted with multiplicity. */
  lemma {:induction false} FilterMultiset(docs: seq<Doc>, f: Filter)
    ensures multiset(Matching(docs, f)) + multiset(Unmatched(docs, f)) == multiset(docs)
    decreases |docs|
  {
    if docs != [] {
      var rest := docs[1..];
      FilterMultiset(rest, f);
      assert docs == [docs[0]] + rest;
      assert Matching(docs, f) == (if f(docs[0]) then [docs[0]] else []) + Matching(rest, f);
      assert Unmatched(docs, f) == (if f(docs[0]) then [] else [docs[0]]) + Unmatched(rest, f);
    }
  }

  /** Matching and non-matching documents partition the collection: every
      matching document is selected, every other one is left. */
  lemma FilterPartition(docs: seq<Doc>, f: Filter)
    ensures multiset(Matching(docs, f)) + multiset(Unmatched(docs, f)) == multiset(docs)
    ensures |Matching(docs, f)| + |Unmatched(docs, f)| == |docs|
    ensures forall d :: d in docs && f(d) ==> d in Matching(docs, f)
    ensures forall d :: d in docs && !f(d) ==> d in Unmatched(docs, f)
  {
    var m := Matching(docs, f);
    var u := Unmatched(docs, f);
    FilterMultiset(docs, f);
    assert |multiset(m) + multiset(u)| == |multiset(docs)|;
    forall d | d in docs
      ensures f(d) ==> d in m
      ensures !f(d) ==> d in u
    {
      assert d in multiset(docs);
      assert d in multiset(m) || d in multiset(u);
    }
  }

  /** `update_many(filter, {"$set": fields})` on the documents. */
  function UpdateMatching(docs: seq<Doc>, f: Filter, fields: Doc): (r: seq<Doc>)
    ensures |r| == |docs|
    ensures forall i :: 0 <= i < |docs| ==> r[i] == if f(docs[i]) then SetFields(docs[i], fields) else docs[i]
  {
    seq(|docs|, i requires 0 <= i < |docs| => if f(docs[i]) then SetFields(docs[i], fields) else docs[i])
  }

  /** The engine's `modified_count`: matched documents that `$set` changes. */
  function ModifiedCount(docs: seq<Doc>, f: Filter, fields: Doc): (n: nat)
    ensures n <= |Matching(docs, f)|
    decreases |docs|
  {
    if docs == [] then 0
    else (if f(docs[0]) && SetFields(docs[0], fields) != docs[0] then 1 else 0) + ModifiedCount(docs[1..], f, fields)
  }

  /** A document is modified by `$set` exactly when some field is missing or
      holds another value. */
  lemma SetFieldsChanges(d: Doc, fields: Doc)
    ensures SetFields(d, fields) != d <==> exists k :: k in fields && (k !in d || d[k] != fields[k])
  {
    if forall k :: k in fields ==> k in d && d[k] == fields[k] {
      assert SetFields(d, fields) == d;
    }
  }

  // ---------------------------------------------------------------------
  // The tool server over the engine's state
  // ---------------------------------------------------------------------

  datatype CreateOutcome = AlreadyExists(name: string, db: string) | Created(name: string, db: string)
  datatype DropOutcome = NoSuchCollection(name: string, db: string) | Dropped(name: string, db: string)
  datatype SchemaOutcome =
    | SchemaMissingCollection(name: string)
    | CollectionEmpty
    | Schema(fields: map<string, string>)
  datatype InsertOutcome =
    | InsertMissingCollection(name: string, db: string)
    | FirstInserted(doc: Doc)
    | NewFields(extra: set<string>)
    | TypeMismatch(field: string, expected: string, got: string)
    | Inserted(doc: Doc)
  datatype ExtendOutcome =
    | ExtendMissingCollection(name: string)
    | SeededEmpty(fields: set<string>)
    | Extended(modified: nat, fields: set<string>)

  /** Predicate matching every document: the `{}` filter. */
  function MatchAll(d: Doc): bool { true }

  /** The Mongo server: every user's database, each a map from collection
      name to documents. A database never written to is empty. */
  class MongoServer {
    var databases: map<string, map<string, seq<Doc>>>

    constructor ()
      ensures databases == map[]
    {
      databases := map[];
    }

    /** `mongo_client[user_id]`: the user's collections. */
    function Collections(userId: string): map<string, seq<Doc>>
      reads this
    {
      if userId in databases then databases[userId] else map[]
    }

    /** The documents of a collection; a missing collection reads as empty,
        as the engine's queries on it do. */
    function Docs(userId: string, name: string): seq<Doc>
      reads this
    {
      if name in Collections(userId) then Collections(userId)[name] else []
    }

    /** The state after replacing one collection's documents. */
    function WithDocs(userId: string, name: string, docs: seq<Doc>): map<string, map<string, seq<Doc>>>
      reads this
    {
      databases[userId := Collections(userId)[name := docs]]
    }

    /** `create_user_collection_only` */
    method CreateUserCollectionOnly(userId: string, collectionName: string := "main") returns (r: CreateOutcome)
      modifies this
      ensures collectionName in old(Collections(userId)) ==>
                r == AlreadyExists(collectionName, userId) && databases == old(databases)
      ensures collectionName !in old(Collections(userId)) ==>
                r == Created(collectionName, userId) && databases == old(WithDocs(userId, collectionName, []))
    {
      if collectionName in Collections(userId) {
        return AlreadyExists(collectionName, userId);
      }
      databases := WithDocs(userId, collectionName, []);
      r := Created(collectionName, userId);
    }

    /** `delete_entire_collection` */
    method DeleteEntireCollection(userId: string, collectionName: string) returns (r: DropOutcome)
      modifies this
      ensures collectionName !in old(Collections(userId)) ==>
                r == NoSuchCollection(collectionName, userId) && databases == old(databases)
      ensures collectionName in old(Collections(userId)) ==>
                && r == Dropped(collectionName, userId)
                && databases == old(databases)[userId := old(Collections(userId)) - {collectionName}]
    {
      var cols := Collections(userId);
      if collectionName !in cols {
        return NoSuchCollection(collectionName, userId);
      }
      databases := databases[userId := cols - {collectionName}];
      r := Dropped(collectionName, userId);
    }

    /** `find_documents_by_filter` (ids are not stringified here). */
    method FindDocumentsByFilter(userId: string, collectionName: string, filter: Filter := MatchAll) returns (docs: seq<Doc>)
      ensures docs == Matching(Docs(userId, collectionName), filter)
    {
      docs := Matching(Docs(userId, collectionName), filter);
    }

    /** `count_documents` */
    method CountDocuments(userId: string, collectionName: string, filter: Filter := MatchAll) returns (n: nat)
      ensures n == |Matching(Docs(userId, collectionName), filter)|
    {
      n := |Matching(Docs(userId, collectionName), filter)|;
    }

    /** `delete_documents_by_filter`: removes exactly the matching documents
        and reports how many. */
    method DeleteDocumentsByFilter(userId: string, collectionName: string, filter: Filter) returns (deleted: nat)
      modifies this
      ensures deleted == |Matching(old(Docs(userId, collectionName)), filter)|
      ensures collectionName !in old(Collections(userId)) ==> databases == old(databases)
      ensures collectionName in old(Collections(userId)) ==>
                databases == old(WithDocs(userId, collectionName, Unmatched(Docs(userId, collectionName), filter)))
    {
      var docs := Docs(userId, collectionName);
      deleted := |Matching(docs, filter)|;
      if collectionName in Collections(userId) {
        databases := WithDocs(userId, collectionName, Unmatched(docs, filter));
      }
    }

    /** `update_documents_by_filter`: `$set`s the fields on the matching
        documents only and reports the engine's modified count. */
    method UpdateDocumentsByFilter(userId: string, collectionName: string, filter: Filter, updateFields: Doc)
      returns (modified: nat)
      modifies this
      ensures modified == ModifiedCount(old(Docs(userId, collectionName)), filter, updateFields)
      ensures collectionName !in old(Collections(userId)) ==> databases == old(databases)
      ensures collectionName in old(Collections(userId)) ==>
                databases == old(WithDocs(userId, collectionName, UpdateMatching(Docs(userId, collectionName), filter, updateFields)))
    {
      var docs := Docs(userId, collectionName);
      modified := ModifiedCount(docs, filter, updateFields);
      if collectionName in Collections(userId) {
        databases := WithDocs(userId, collectionName, UpdateMatching(docs, filter, updateFields));
      }
    }

    /** `get_collection_schema` */
    method GetCollectionSchema(userId: string, collectionName: string := "main") returns (r: SchemaOutcome)
      ensures collectionName !in Collections(userId) ==> r == SchemaMissingCollection(collectionName)
      ensures collectionName in Collections(userId) && Docs(userId, collectionName) == [] ==> r == CollectionEmpty
      ensures collectionName in Collections(userId) && Docs(userId, collectionName) != [] ==>
                && r.Schema?
                && r.fields.Keys == Docs(userId, collectionName)[0].Keys - {IdField}
                && forall k :: k in r.fields ==> r.fields[k] == TypeName(TypeOf(Docs(userId, collectionName)[0][k]))
    {
      var cols := Collections(userId);
      if collectionName !in cols {
        return SchemaMissingCollection(collectionName);
      }
      var docs := cols[collectionName];
      if docs == [] {
        return CollectionEmpty;
      }
      r := Schema(SchemaOf(docs[0]));
    }

    /** `insert_to_collection`: the schema guard, then one appended document. */
    method InsertToCollection(userId: string, collectionName: string, newData: Doc) returns (r: InsertOutcome)
      modifies this
      ensures collectionName !in old(Collections(userId)) ==>
                r == InsertMissingCollection(collectionName, userId) && databases == old(databases)
      ensures collectionName in old(Collections(userId)) ==>
        var docs := old(Docs(userId, collectionName));
        match Validate(docs, newData)
        case Accept(d) =>
          && r == (if docs == [] then FirstInserted(d) else Inserted(d))
          && databases == old(WithDocs(userId, collectionName, docs + [d]))
        case UnknownFields(extra) =>
          r == NewFields(extra) && databases == old(databases)
        case TypeMismatches(fields) =>
          && r.TypeMismatch? && r.field in fields
          && r.expected == TypeName(TypeOf(docs[0][r.field]))
          && r.got == TypeName(TypeOf(newData[r.field]))
          && databases == old(databases)
    {
      var cols := Collections(userId);
      if collectionName !in cols {
        return InsertMissingCollection(collectionName, userId);
      }
      var docs := cols[collectionName];
      if docs == [] {
        databases := WithDocs(userId, collectionName, docs + [newData]);
        return FirstInserted(newData);
      }
      var sample := docs[0];
      var extra := newData.Keys - SchemaKeys(sample);
      if extra != {} {
        return NewFields(extra);
      }
      var bad := FindTypeMismatch(sample, newData);
      if bad.Some? {
        var k := bad.value;
        return TypeMismatch(k, TypeName(TypeOf(sample[k])), TypeName(TypeOf(newData[k])));
      }
      var full := BuildFullData(sample, newData);
      databases := WithDocs(userId, collectionName, docs + [full]);
      r := Inserted(full);
    }

    /** `update_collection_schema_fields` */
    method UpdateCollectionSchemaFields(userId: string, collectionName: string, newFields: Doc) returns (r: ExtendOutcome)
      modifies this
      ensures collectionName !in old(Collections(userId)) ==>
                r == ExtendMissingCollection(collectionName) && databases == old(databases)
      ensures collectionName in old(Collections(userId)) ==>
        var docs := old(Docs(userId, collectionName));
        && databases == old(WithDocs(userId, collectionName, SchemaExtended(docs, newFields)))
        && r == if docs == [] then SeededEmpty(newFields.Keys)
                else Extended(ModifiedCount(docs, MatchAll, newFields), newFields.Keys)
    {
      var cols := Collections(userId);
      if collectionName !in cols {
        return ExtendMissingCollection(collectionName);
      }
      var docs := cols[collectionName];
      var modified := ModifiedCount(docs, MatchAll, newFields);
      var updated := UpdateMatching(docs, MatchAll, newFields);
      if |updated| == 0 {
        databases := WithDocs(userId, collectionName, [newFields]);
        return SeededEmpty(newFields.Keys);
      }
      assert updated == SetFieldsOnAll(docs, newFields);
      databases := WithDocs(userId, collectionName, updated);
      r := Extended(modified, newFields.Keys);
    }
  }

  /** The type check of `insert_to_collection`: walks the new document's
      fields and reports a field whose exact type differs from the sample's,
      or None when there is none. Which mismatching field is reported depends
      on key order, which a map does not keep. */
  method FindTypeMismatch(sample: Doc, data: Doc) returns (r: Optional.Option<string>)
    ensures r.None? <==> Mismatched(sample, data) == {}
    ensures r.Some? ==> r.value in Mismatched(sample, data)
  {
    var todo := data.Keys;
    while todo != {}
      invariant todo <= data.Keys
      invariant forall k :: k in data && k !in todo ==> k !in Mismatched(sample, data)
      decreases todo
    {
      var k :| k in todo;
      if k in sample && TypeOf(data[k]) != TypeOf(sample[k]) {
        assert k in Mismatched(sample, data);
        return Optional.Some(k);
      }
      todo := todo - {k};
    }
    r := Optional.None;
  }

  /** The loop of `insert_to_collection` that builds `full_data`. */
  method BuildFullData(sample: Doc, data: Doc) returns (full: Doc)
    ensures full == FullData(sample, data)
  {
    full := map[];
    var todo := SchemaKeys(sample);
    while todo != {}
      invariant todo <= SchemaKeys(sample)
      invariant full.Keys == SchemaKeys(sample) - todo
      invariant forall k :: k in full ==> full[k] == FullData(sample, data)[k]
      decreases todo
    {
      var k :| k in todo;
      if k in data {
        full := full[k := data[k]];
      } else {
        full := full[k := DefaultValueForType(TypeOf(sample[k]))];
      }
      todo := todo - {k};
    }
  }

  /** The schema scenario: an empty collection takes {"name": "Ann"} as its
      baseline; {"name": "Bo", "age": 5} is then refused for its unknown
      field "age"; after extending the schema with {"age": 0} it is
      accepted as given. */
  lemma SchemaScenario()
    ensures var ann := map["name" := Str("Ann")];
            var bo := map["name" := Str("Bo"), "age" := Int(5)];
      && Validate([], ann) == Accept(ann)
      && Validate([ann], bo) == UnknownFields({"age"})
      && Validate(SchemaExtended([ann], map["age" := Int(0)]), bo) == Accept(bo)
  {
    var ann := map["name" := Str("Ann")];
    var bo := map["name" := Str("Bo"), "age" := Int(5)];
    assert ExtraKeys(ann, bo) == {"age"};
    var ext := SchemaExtended([ann], map["age" := Int(0)]);
    var s := ext[0];
    assert s == map["name" := Str("Ann"), "age" := Int(0)];
    assert ExtraKeys(s, bo) == {};
    assert Mismatched(s, bo) == {};
    assert FullData(s, bo) == bo;
  }
}
