/**
 * The decorated properties of src/test.spec.ts and samples/sample.ts, one
 * property at a time: the decorators of one property run bottom-up, each on
 * the records the previous one left.
 */
module Examples {
  import opened JsValues
  import opened Meta
  import opened Decorators

  const CUSTOMER := OtherFunction(1)
  const SERVICE := OtherFunction(2)
  const CONTACT := OtherFunction(3)

  /** `Object`: the design type of a property whose type is an object literal. */
  const OBJECT_CTOR := OtherFunction(0)

  /** The options of `@virtuals` on `services`. */
  const SERVICES_REF := Obj(map["ref" := Str("Service"), "localField" := Str("_id"),
                                "foreignField" := Str("customer"), "justOne" := Bool(false)])

  /** The record `@unique _id: number` leaves on a class without metadata. */
  const UNIQUE_ID := EMPTY_META.(schemaObj := map[
    "_id" := Obj(map["type" := Function(NumberCtor), "unique" := Bool(true)])])

  /** `@unique _id: number` on a class without metadata seeds type Number beside `unique`. */
  lemma UniqueNumberId(t: Table)
    requires CUSTOMER !in t
    ensures var r := ApplyFieldDecoratorStep(t, UNIQUE, Prototype(CUSTOMER), "_id", Some(NumberCtor));
            !r.threw && r.table[CUSTOMER] == UNIQUE_ID
  {
    BareFieldSeedsType(t, UNIQUE, Prototype(CUSTOMER), "_id", NumberCtor);
    AssignOne(map["type" := Function(NumberCtor)], "unique", Bool(true));
  }

  /** `@indexed` over the entry `@unique` left adds `index` and keeps the rest. */
  lemma IndexedOverUniqueId(t: Table)
    requires CUSTOMER in t && t[CUSTOMER] == UNIQUE_ID
    ensures var r := ApplyFieldDecoratorStep(t, INDEXED, Prototype(CUSTOMER), "_id", Some(NumberCtor));
            && !r.threw
            && r.table[CUSTOMER] == EMPTY_META.(schemaObj := map[
                 "_id" := Obj(map["type" := Function(NumberCtor), "unique" := Bool(true), "index" := Bool(true)])])
  {
    var unique := map["type" := Function(NumberCtor), "unique" := Bool(true)];
    BareFieldOverEntry(t, INDEXED, Prototype(CUSTOMER), "_id", Some(NumberCtor));
    assert Lookup(t[CUSTOMER].schemaObj, "_id") == Obj(unique);
    AssignOne(unique, "index", Bool(true));
    OverwriteOne(map["_id" := Obj(unique)], "_id", Obj(unique["index" := Bool(true)]));
  }

  /**
   * `@indexed @unique _id: number` on a class without metadata: one path of
   * type Number that is unique and indexed, and nothing else in the record.
   */
  lemma IndexedUniqueNumberId(t: Table)
    requires CUSTOMER !in t
    ensures var s1 := ApplyFieldDecoratorStep(t, UNIQUE, Prototype(CUSTOMER), "_id", Some(NumberCtor));
            var s2 := ApplyFieldDecoratorStep(s1.table, INDEXED, Prototype(CUSTOMER), "_id", Some(NumberCtor));
            && !s1.threw && !s2.threw
            && s2.table[CUSTOMER] == EMPTY_META.(schemaObj := map[
                 "_id" := Obj(map["type" := Function(NumberCtor), "unique" := Bool(true), "index" := Bool(true)])])
  {
    UniqueNumberId(t);
    IndexedOverUniqueId(ApplyFieldDecoratorStep(t, UNIQUE, Prototype(CUSTOMER), "_id", Some(NumberCtor)).table);
  }

  /** Bare `@field` on a `string` property not decorated before: a path of type String. */
  lemma FieldOnStringProperty(t: Table, cls: Func, key: string)
    requires key != "" && !Truthy(Lookup(MetaOf(t, cls).schemaObj, key))
    ensures var r := ApplyFieldDecoratorStep(t, FIELD, Prototype(cls), key, Some(StringCtor));
            && !r.threw
            && r.table[cls].schemaObj == MetaOf(t, cls).schemaObj[key := Obj(map["type" := Function(StringCtor)])]
  {
    BareFieldSeedsType(t, FIELD, Prototype(cls), key, StringCtor);
    AssignNothing(map["type" := Function(StringCtor)]);
  }

  /**
   * `@field(Mongoose.Schema.Types.ObjectId)` on a property of that type: the
   * SchemaType becomes the `type` option unchanged.
   */
  lemma FieldWithObjectIdSchemaType(t: Table)
    requires !Truthy(Lookup(MetaOf(t, SERVICE).schemaObj, "_id"))
    ensures var r := PropertyDecoratorStep(t, FieldFactory(FIELD, SCHEMA_OBJECT_ID), Prototype(SERVICE), "_id",
                                           Some(SchemaTypeCtor("ObjectId")));
            && !r.threw
            && r.table[SERVICE].schemaObj == MetaOf(t, SERVICE).schemaObj["_id" := Obj(map["type" := SCHEMA_OBJECT_ID])]
  {
    var options := MergeOptions(FIELD.defaults, SCHEMA_OBJECT_ID, t.Keys);
    MergeOptionsTypeConstructor(FIELD.defaults, SCHEMA_OBJECT_ID, t.Keys);
    assert options == Obj(map["type" := SCHEMA_OBJECT_ID]);
    FirstDecorationSeedsType(t, SERVICE, "_id", options, SchemaTypeCtor("ObjectId"));
    assert map["type" := SCHEMA_OBJECT_ID] + map["type" := SCHEMA_OBJECT_ID] == map["type" := SCHEMA_OBJECT_ID];
  }

  /** `@indexed` over the entry `@field(Mongoose.Schema.Types.ObjectId)` left adds `index`. */
  lemma IndexedOverObjectId(t: Table)
    requires "_id" in MetaOf(t, SERVICE).schemaObj
    requires MetaOf(t, SERVICE).schemaObj["_id"] == Obj(map["type" := SCHEMA_OBJECT_ID])
    ensures var r := ApplyFieldDecoratorStep(t, INDEXED, Prototype(SERVICE), "_id", Some(SchemaTypeCtor("ObjectId")));
            && !r.threw
            && r.table[SERVICE].schemaObj
               == MetaOf(t, SERVICE).schemaObj["_id" := Obj(map["type" := SCHEMA_OBJECT_ID, "index" := Bool(true)])]
  {
    BareFieldOverEntry(t, INDEXED, Prototype(SERVICE), "_id", Some(SchemaTypeCtor("ObjectId")));
    AssignOne(map["type" := SCHEMA_OBJECT_ID], "index", Bool(true));
  }

  /** `@indexed @field(Mongoose.Schema.Types.ObjectId) _id`: the SchemaType with `index` beside it. */
  lemma IndexedObjectId(t: Table)
    requires !Truthy(Lookup(MetaOf(t, SERVICE).schemaObj, "_id"))
    ensures var s1 := PropertyDecoratorStep(t, FieldFactory(FIELD, SCHEMA_OBJECT_ID), Prototype(SERVICE), "_id",
                                            Some(SchemaTypeCtor("ObjectId")));
            var s2 := ApplyFieldDecoratorStep(s1.table, INDEXED, Prototype(SERVICE), "_id", Some(SchemaTypeCtor("ObjectId")));
            && !s1.threw && !s2.threw
            && s2.table[SERVICE].schemaObj
               == MetaOf(t, SERVICE).schemaObj["_id" := Obj(map["type" := SCHEMA_OBJECT_ID, "index" := Bool(true)])]
  {
    var typed := Obj(map["type" := SCHEMA_OBJECT_ID]);
    var s1 := PropertyDecoratorStep(t, FieldFactory(FIELD, SCHEMA_OBJECT_ID), Prototype(SERVICE), "_id",
                                    Some(SchemaTypeCtor("ObjectId")));
    FieldWithObjectIdSchemaType(t);
    assert MetaOf(s1.table, SERVICE).schemaObj == MetaOf(t, SERVICE).schemaObj["_id" := typed];
    IndexedOverObjectId(s1.table);
    var s2 := ApplyFieldDecoratorStep(s1.table, INDEXED, Prototype(SERVICE), "_id", Some(SchemaTypeCtor("ObjectId")));
    var indexed := Obj(map["type" := SCHEMA_OBJECT_ID, "index" := Bool(true)]);
    var m := MetaOf(t, SERVICE).schemaObj;
    StoreTwice(m, "_id", typed, indexed);
  }

  /** `@field({ref: 'Customer'}) customer: number`: type Number beside the reference. */
  lemma FieldWithRefOnNumber(t: Table)
    requires !Truthy(Lookup(MetaOf(t, SERVICE).schemaObj, "customer"))
    ensures var r := PropertyDecoratorStep(t, FieldFactory(FIELD, Obj(map["ref" := Str("Customer")])),
                                           Prototype(SERVICE), "customer", Some(NumberCtor));
            && !r.threw
            && r.table[SERVICE].schemaObj
               == MetaOf(t, SERVICE).schemaObj["customer" := Obj(map["type" := Function(NumberCtor), "ref" := Str("Customer")])]
  {
    var ref := map["ref" := Str("Customer")];
    var options := MergeOptions(FIELD.defaults, Obj(ref), t.Keys);
    assert options == Obj(map[] + ref);
    FirstDecorationSeedsType(t, SERVICE, "customer", options, NumberCtor);
    AssignOne(map[], "ref", Str("Customer"));
    AssignOne(map["type" := Function(NumberCtor)], "ref", Str("Customer"));
  }

  /**
   * `@required` over an entry that is a one-element array: the non-array
   * merge spreads the array, so the entry becomes an object with the key "0"
   * beside `required`, not a one-element array.
   */
  lemma RequiredOverOneElementArray(t: Table, cls: Func, key: string, elem: Value, designType: Option<Func>)
    requires key != "" && key in MetaOf(t, cls).schemaObj && MetaOf(t, cls).schemaObj[key] == Arr([elem])
    ensures var r := ApplyFieldDecoratorStep(t, REQUIRED, Prototype(cls), key, designType);
            && !r.threw
            && r.table[cls].schemaObj == MetaOf(t, cls).schemaObj[key := Obj(map["0" := elem, "required" := Bool(true)])]
  {
    SingletonArrayProps(elem);
    BareFieldOverEntry(t, REQUIRED, Prototype(cls), key, designType);
    AssignOne(map["0" := elem], "required", Bool(true));
  }

  /**
   * `@required @field([String]) tags: string[]` on a property not decorated
   * before: not `[{type: String, required: true}]` but an object holding the
   * element options under "0" and `required` beside them.
   */
  lemma RequiredOverArrayField(t: Table, cls: Func, key: string)
    requires key != "" && !Truthy(Lookup(MetaOf(t, cls).schemaObj, key))
    ensures var s1 := PropertyDecoratorStep(t, FieldFactory(FIELD, Arr([Function(StringCtor)])),
                                            Prototype(cls), key, Some(ArrayCtor));
            var s2 := ApplyFieldDecoratorStep(s1.table, REQUIRED, Prototype(cls), key, Some(ArrayCtor));
            && !s1.threw && !s2.threw
            && s2.table[cls].schemaObj[key]
               == Obj(map["0" := Obj(map["type" := Function(StringCtor)]), "required" := Bool(true)])
  {
    FieldOfArrayType(t, cls, key, StringCtor);
    NormalizeTypePriority(StringCtor, t.Keys);
    var s1 := PropertyDecoratorStep(t, FieldFactory(FIELD, Arr([Function(StringCtor)])),
                                    Prototype(cls), key, Some(ArrayCtor));
    RequiredOverOneElementArray(s1.table, cls, key, Obj(map["type" := Function(StringCtor)]), Some(ArrayCtor));
  }

  /** `@statics` on a static member records under Function, not under the class being defined. */
  lemma StaticMemberRecordsUnderFunction(t: Table, cls: Func, key: string, member: Value)
    requires Truthy(member) && cls != FunctionCtor
    ensures var r := StaticsStep(t, ClassObject(cls), key, member);
            && MetaOf(r, cls) == MetaOf(t, cls)
            && r[FunctionCtor].statics[key] == member
  {
  }
  /** What `@indexed` leaves on a `string` property: type String beside `index`. */
  const INDEXED_STRING := Obj(map["type" := Function(StringCtor), "index" := Bool(true)])

  /** `@indexed name: string` on a property not decorated before. */
  lemma IndexedName(t: Table, cls: Func)
    requires !Truthy(Lookup(MetaOf(t, cls).schemaObj, "name"))
    ensures var r := ApplyFieldDecoratorStep(t, INDEXED, Prototype(cls), "name", Some(StringCtor));
            && !r.threw
            && r.table[cls].schemaObj == MetaOf(t, cls).schemaObj["name" := INDEXED_STRING]
  {
    BareFieldSeedsType(t, INDEXED, Prototype(cls), "name", StringCtor);
    NormalizeTypePriority(StringCtor, t.Keys + {cls});
    AssignOne(map["type" := Function(StringCtor)], "index", Bool(true));
  }

  /** A bare `@field` over the entry `@indexed` left changes nothing in the record. */
  lemma FieldOverIndexedEntry(t: Table, cls: Func)
    requires "name" in MetaOf(t, cls).schemaObj && MetaOf(t, cls).schemaObj["name"] == INDEXED_STRING
    ensures var r := ApplyFieldDecoratorStep(t, FIELD, Prototype(cls), "name", Some(StringCtor));
            !r.threw && r.table[cls] == MetaOf(t, cls)
  {
    BareFieldOverEntry(t, FIELD, Prototype(cls), "name", Some(StringCtor));
    AssignNothing(INDEXED_STRING.props);
  }

  /**
   * `@field @indexed name: string`: `@indexed` seeds type String beside
   * `index`, and the bare `@field` above it then adds nothing.
   */
  lemma FieldOverIndexedName(t: Table, cls: Func)
    requires !Truthy(Lookup(MetaOf(t, cls).schemaObj, "name"))
    ensures var s1 := ApplyFieldDecoratorStep(t, INDEXED, Prototype(cls), "name", Some(StringCtor));
            var s2 := ApplyFieldDecoratorStep(s1.table, FIELD, Prototype(cls), "name", Some(StringCtor));
            && !s1.threw && !s2.threw
            && s2.table[cls].schemaObj == MetaOf(t, cls).schemaObj["name" := INDEXED_STRING]
  {
    IndexedName(t, cls);
    FieldOverIndexedEntry(ApplyFieldDecoratorStep(t, INDEXED, Prototype(cls), "name", Some(StringCtor)).table, cls);
  }

  /** `@field(Date) createdDate: Date`: the constructor given becomes the `type` option. */
  lemma FieldWithDate(t: Table, cls: Func, key: string)
    requires !Truthy(Lookup(MetaOf(t, cls).schemaObj, key))
    ensures var r := PropertyDecoratorStep(t, FieldFactory(FIELD, Function(DateCtor)), Prototype(cls), key,
                                           Some(DateCtor));
            && !r.threw
            && r.table[cls].schemaObj == MetaOf(t, cls).schemaObj[key := Obj(map["type" := Function(DateCtor)])]
  {
    var typed := map["type" := Function(DateCtor)];
    var options := MergeOptions(FIELD.defaults, Function(DateCtor), t.Keys);
    MergeOptionsTypeConstructor(FIELD.defaults, Function(DateCtor), t.Keys);
    assert options == Obj(typed);
    FirstDecorationSeedsType(t, cls, key, options, DateCtor);
    assert typed + typed == typed;
  }

  /**
   * `@field sub: {prop1: string}`: the design type is Object, which has no
   * metadata, so the path gets type Mixed.
   */
  lemma FieldOnObjectLiteralType(t: Table, cls: Func, key: string)
    requires key != "" && cls != OBJECT_CTOR && OBJECT_CTOR !in t
    requires !Truthy(Lookup(MetaOf(t, cls).schemaObj, key))
    ensures var r := ApplyFieldDecoratorStep(t, FIELD, Prototype(cls), key, Some(OBJECT_CTOR));
            && !r.threw
            && r.table[cls].schemaObj == MetaOf(t, cls).schemaObj[key := Obj(map["type" := MIXED])]
  {
    BareFieldSeedsType(t, FIELD, Prototype(cls), key, OBJECT_CTOR);
    NormalizeTypePriority(OBJECT_CTOR, t.Keys + {cls});
    AssignNothing(map["type" := MIXED]);
  }

  /**
   * `@field([Contact]) contacts` after `Contact` was decorated: the path is
   * an array of Contact's sub-schema.
   */
  lemma FieldOfDecoratedClassArray(t: Table)
    requires CONTACT in t
    requires !Truthy(Lookup(MetaOf(t, CUSTOMER).schemaObj, "contacts"))
    ensures var r := PropertyDecoratorStep(t, FieldFactory(FIELD, Arr([Function(CONTACT)])), Prototype(CUSTOMER),
                                           "contacts", Some(ArrayCtor));
            && !r.threw
            && r.table[CUSTOMER].schemaObj
               == MetaOf(t, CUSTOMER).schemaObj["contacts" := Arr([Obj(map["type" := Schema(CONTACT)])])]
  {
    FieldOfArrayType(t, CUSTOMER, "contacts", CONTACT);
    NormalizeTypePriority(CONTACT, t.Keys);
  }

  /** `@virtuals({ref: 'Service', ...}) services`: the options are stored as the virtual's value. */
  lemma VirtualServicesReference(t: Table)
    ensures var r := PropertyDecoratorStep(t, VirtualRef(SERVICES_REF), Prototype(CUSTOMER), "services", None);
            && !r.threw
            && r.table[CUSTOMER].virtuals["services"] == Descriptor(SERVICES_REF, Undefined, Undefined)
            && r.table[CUSTOMER].virtuals["services"].value.props["ref"] == Str("Service")
            && r.table[CUSTOMER].schemaObj == MetaOf(t, CUSTOMER).schemaObj
  {
  }

  /** `@schema({_id: false})` and its like: a truthy non-function argument becomes the schema options. */
  lemma SchemaOptionsRecorded(t: Table, cls: Func, options: map<string, Value>)
    ensures SchemaFactory(Obj(options)).Some?
    ensures ClassDecoratorStep(t, SchemaFactory(Obj(options)).value, cls)[cls] == MetaOf(t, cls).(options := Obj(options))
  {
  }
}
