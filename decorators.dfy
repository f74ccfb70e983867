/**
 * The decorators of src/decorators.ts: how field options are normalised and
 * merged, and how each decorator updates the metadata record of the class it
 * decorates. Each decorator is given twice: as a function on the metadata of
 * all functions (a `Table`), which the lemmas are about, and as a method that
 * updates the shared records in place and is proved to have the function's
 * effect.
 */
module Decorators {
  import opened JsValues
  import opened Meta

  /** `Mongoose.Schema.Types.Mixed` */
  const MIXED := Function(SchemaTypeCtor("Mixed"))

  /** `Mongoose.Schema.Types.ObjectId` */
  const SCHEMA_OBJECT_ID := Function(SchemaTypeCtor("ObjectId"))

  /** The `acceptableTypes` of `normalizeType`: Boolean, Date, Number and String. */
  predicate IsAcceptableType(t: Func)
  {
    t == BooleanCtor || t == DateCtor || t == NumberCtor || t == StringCtor
  }

  /** A function that none of the first four rules of `normalizeType` singles out. */
  predicate IsPlainFunction(t: Func)
  {
    !IsAcceptableType(t) && !t.SchemaTypeCtor? && t != ObjectIdCtor && t != ArrayCtor
  }

  /**
   * A `type` that Mongoose accepts for a field: a built-in constructor, a
   * SchemaType, an array of Mixed, or the Schema of a class with metadata.
   */
  predicate IsMongooseType(v: Value, registered: set<Func>)
  {
    match v
    case Function(f) => IsAcceptableType(f) || f.SchemaTypeCtor?
    case Arr(s) => s == [MIXED]
    case Schema(c) => c in registered
    case _ => false
  }

  /**
   * `normalizeType(type)`: the Mongoose type for a type reference. `registered`
   * is the set of functions that have metadata at the time of the call.
   */
  function NormalizeType(t: Func, registered: set<Func>): (r: Value)
    ensures IsMongooseType(r, registered)
    ensures r == Function(t) <==> IsAcceptableType(t) || t.SchemaTypeCtor?
    ensures r.Schema? <==> IsPlainFunction(t) && t in registered
    ensures r.Schema? ==> r.of == t
  {
    if IsAcceptableType(t) then Function(t)
    else if t.SchemaTypeCtor? then Function(t)
    else if t == ObjectIdCtor then SCHEMA_OBJECT_ID
    else if t == ArrayCtor then Arr([MIXED])
    else if t in registered then Schema(t)
    else MIXED
  }

  /** The six rules of `normalizeType`, each applying only when the earlier ones do not. */
  lemma NormalizeTypePriority(t: Func, registered: set<Func>)
    ensures IsAcceptableType(t) ==> NormalizeType(t, registered) == Function(t)
    ensures t.SchemaTypeCtor? ==> NormalizeType(t, registered) == Function(t)
    ensures t == ObjectIdCtor ==> NormalizeType(t, registered) == SCHEMA_OBJECT_ID
    ensures t == ArrayCtor ==> NormalizeType(t, registered) == Arr([MIXED])
    ensures IsPlainFunction(t) && t in registered ==> NormalizeType(t, registered) == Schema(t)
    ensures IsPlainFunction(t) && t !in registered ==> NormalizeType(t, registered) == MIXED
  {
  }

  /** Metadata matters only for the functions that reach the sub-document rule. */
  lemma NormalizeTypeRegistryIndependent(t: Func, r1: set<Func>, r2: set<Func>)
    requires IsPlainFunction(t) ==> (t in r1 <==> t in r2)
    ensures NormalizeType(t, r1) == NormalizeType(t, r2)
  {
  }

  /** The option value `mergeOptions` merges: the first element of an array argument. */
  function Unwrapped(options: Value): Value
  {
    if options.Arr? then (if options.elems == [] then Undefined else options.elems[0]) else options
  }

  /** A bare type constructor standardised to `{type: T}`; any other value as it is. */
  function Standardized(opts: Value, registered: set<Func>): Value
  {
    if opts.Function? then Obj(map["type" := NormalizeType(opts.f, registered)]) else opts
  }

  /** The option map that a `mergeOptions` result carries, in either shape. */
  function OptionMap(r: Value): map<string, Value>
  {
    if r.Arr? && |r.elems| == 1 && r.elems[0].Obj? then r.elems[0].props
    else if r.Obj? then r.props
    else map[]
  }

  /**
   * `mergeOptions(defaults, options)`: `Object.assign({}, defaults, opts)`
   * where `opts` is `options` (or its first element, when it is an array)
   * with a type constructor standardised to `{type: T}`; an array argument
   * gives a one-element array.
   */
  function MergeOptions(defaults: Value, options: Value, registered: set<Func>): (r: Value)
    ensures r.Arr? <==> options.Arr?
    ensures r.Arr? ==> |r.elems| == 1 && r.elems[0].Obj?
    ensures !r.Arr? ==> r.Obj?
    ensures var given := OwnProps(Standardized(Unwrapped(options), registered));
            var merged := OptionMap(r);
            && merged.Keys == OwnProps(defaults).Keys + given.Keys
            && (forall k :: k in given ==> merged[k] == given[k])
            && (forall k :: k in OwnProps(defaults) && k !in given ==> merged[k] == OwnProps(defaults)[k])
  {
    var opts := Standardized(Unwrapped(options), registered);
    var merged := Obj(OwnProps(defaults) + OwnProps(opts));
    if options.Arr? then Arr([merged]) else merged
  }

  /** A type constructor given as options (alone or in an array) becomes the `type` option. */
  lemma MergeOptionsTypeConstructor(defaults: Value, options: Value, registered: set<Func>)
    requires Unwrapped(options).Function?
    ensures OptionMap(MergeOptions(defaults, options, registered))
         == OwnProps(defaults)["type" := NormalizeType(Unwrapped(options).f, registered)]
  {
    var normalized := NormalizeType(Unwrapped(options).f, registered);
    assert OwnProps(Standardized(Unwrapped(options), registered)) == map["type" := normalized];
    AssignOne(OwnProps(defaults), "type", normalized);
  }

  /** Without options, `mergeOptions(defaults)` is a copy of `defaults`. */
  lemma MergeOptionsNoOptions(defaults: Value, registered: set<Func>)
    ensures MergeOptions(defaults, Undefined, registered) == Obj(OwnProps(defaults))
  {
    assert OwnProps(Standardized(Unwrapped(Undefined), registered)) == map[];
    AssignNothing(OwnProps(defaults));
  }

  /** What `makeFieldDecorator(defaults)` returns, identified by its defaults. */
  datatype FieldDecorator = FieldDecorator(defaults: Value)

  const FIELD := FieldDecorator(Obj(map[]))
  const REQUIRED := FieldDecorator(Obj(map["required" := Bool(true)]))
  const INDEXED := FieldDecorator(Obj(map["index" := Bool(true)]))
  const UNIQUE := FieldDecorator(Obj(map["unique" := Bool(true)]))

  /** Bare `@required`, `@indexed` and `@unique` contribute exactly their one flag. */
  lemma FlagDecoratorsContributeTheirFlag(registered: set<Func>)
    ensures MergeOptions(FIELD.defaults, Undefined, registered) == Obj(map[])
    ensures MergeOptions(REQUIRED.defaults, Undefined, registered) == Obj(map["required" := Bool(true)])
    ensures MergeOptions(INDEXED.defaults, Undefined, registered) == Obj(map["index" := Bool(true)])
    ensures MergeOptions(UNIQUE.defaults, Undefined, registered) == Obj(map["unique" := Bool(true)])
  {
  }

  /** A decorator returned by a decorator factory, waiting for its property. */
  datatype PropertyDecorator =
    | FieldWith(defaults: Value, options: Value)   // `@field(options)`, `@required(options)`, ...
    | VirtualRef(options: Value)                   // `@virtuals(options)`

  /** `@field(options)` and its siblings called with options: the decorator they return. */
  function FieldFactory(d: FieldDecorator, options: Value): (r: PropertyDecorator)
    ensures forall t, target, key, designType ::
              PropertyDecoratorStep(t, r, target, key, designType)
              == SetFieldOptionsStep(t, ConstructorOf(target), key, MergeOptions(d.defaults, options, t.Keys), designType)
  {
    FieldWith(d.defaults, options)
  }

  /** The decorator `@schema(options)` returns. */
  datatype ClassDecorator = SetSchemaOptions(options: Value)

  /** `schema(options)`: a class decorator only for a truthy, non-function argument. */
  function SchemaFactory(options: Value): (r: Option<ClassDecorator>)
    ensures r.Some? <==> Truthy(options) && !options.Function?
    ensures r.Some? ==> r.value.options == options
  {
    if Truthy(options) && !options.Function? then Some(SetSchemaOptions(options)) else None
  }

  /** Bare `@schema` on a class is the call `schema(C)`, which makes no decorator. */
  lemma BareSchemaDoesNothing(c: Func)
    ensures SchemaFactory(Function(c)) == None
  {
  }

  /**
   * What a member decorator receives as `target`: the prototype of the class
   * for an instance member, the class itself for a static member.
   */
  datatype Target = Prototype(cls: Func) | ClassObject(cls: Func)

  /** `target.constructor`: the class, or Function for a class object. */
  function ConstructorOf(target: Target): Func
  {
    if target.Prototype? then target.cls else FunctionCtor
  }

  /** `schemaObj[propertyKey]`, undefined when absent. */
  function Lookup(m: map<string, Value>, key: string): Value
  {
    if key in m then m[key] else Undefined
  }

  /**
   * The entry `setFieldOptions` stores for `key`; None when there is no entry
   * yet and the design type is undefined, where `normalizeType` throws.
   */
  function FieldEntry(schemaObj: map<string, Value>, key: string, options: Value,
                      designType: Option<Func>, registered: set<Func>): (r: Option<Value>)
    ensures r.None? <==> !Truthy(Lookup(schemaObj, key)) && designType.None?
  {
    var existing := Lookup(schemaObj, key);
    if Truthy(existing) then Some(MergeOptions(existing, options, registered))
    else if designType.None? then None
    else Some(MergeOptions(Obj(map["type" := NormalizeType(designType.value, registered)]), options, registered))
  }

  /** The outcome of a decorator that may throw, and the metadata it leaves. */
  datatype Step = Step(threw: bool, table: Table)

  /**
   * `setFieldOptions(target, key, options)` on the class `owner`: installs
   * the owner's record, then stores the merged entry for `key`.
   */
  function SetFieldOptionsStep(t: Table, owner: Func, key: string, options: Value,
                               designType: Option<Func>): (r: Step)
    ensures OnlyEntryChanged(t, r.table, owner)
    ensures var before := MetaOf(t, owner);
            var after := r.table[owner];
            && after == before.(schemaObj := after.schemaObj)
            && after.schemaObj.Keys == before.schemaObj.Keys + (if r.threw then {} else {key})
            && (forall k :: k in before.schemaObj && k != key ==> after.schemaObj[k] == before.schemaObj[k])
            && (r.threw <==> !Truthy(Lookup(before.schemaObj, key)) && designType.None?)
            && (r.threw ==> after == before)
  {
    var t1 := Install(t, owner);
    var meta := t1[owner];
    match FieldEntry(meta.schemaObj, key, options, designType, t1.Keys)
    case None => Step(true, t1)
    case Some(e) => Step(false, t1[owner := meta.(schemaObj := meta.schemaObj[key := e])])
  }

  /**
   * The first decoration of a property seeds `{type: normalizeType(designType)}`,
   * with every class that has metadata by then counting as a sub-document.
   */
  lemma FirstDecorationSeedsType(t: Table, owner: Func, key: string, options: Value, designType: Func)
    requires !Truthy(Lookup(MetaOf(t, owner).schemaObj, key))
    ensures var r := SetFieldOptionsStep(t, owner, key, options, Some(designType));
            var registered := t.Keys + {owner};
            var meta := MetaOf(t, owner);
            && !r.threw
            && r.table[owner] == meta.(schemaObj := meta.schemaObj[
                 key := MergeOptions(Obj(map["type" := NormalizeType(designType, registered)]), options, registered)])
  {
  }

  /**
   * Re-decorating a property merges over its entry: options of the later
   * decorator win, options only in the earlier entry survive.
   */
  lemma RedecorationMerges(t: Table, owner: Func, key: string, options: Value, designType: Option<Func>)
    requires Truthy(Lookup(MetaOf(t, owner).schemaObj, key))
    requires !Unwrapped(options).Function?
    ensures var r := SetFieldOptionsStep(t, owner, key, options, designType);
            var earlier := OwnProps(MetaOf(t, owner).schemaObj[key]);
            var later := OwnProps(Unwrapped(options));
            var merged := OptionMap(r.table[owner].schemaObj[key]);
            && !r.threw
            && merged.Keys == earlier.Keys + later.Keys
            && (forall k :: k in later ==> merged[k] == later[k])
            && (forall k :: k in earlier && k !in later ==> merged[k] == earlier[k])
  {
    var registered := t.Keys + {owner};
    assert Standardized(Unwrapped(options), registered) == Unwrapped(options);
  }

  /**
   * A field decorator used bare (`@field`, `@required`, ...): `fieldDecorator(target, key)`.
   * An empty key is falsy, so the call is taken for a factory call and its
   * result is dropped.
   */
  function ApplyFieldDecoratorStep(t: Table, d: FieldDecorator, target: Target, key: string,
                                   designType: Option<Func>): (r: Step)
    ensures key == "" ==> r == Step(false, t)
    ensures key != "" ==> OnlyEntryChanged(t, r.table, ConstructorOf(target))
    ensures key != "" && !r.threw ==>
              && key in r.table[ConstructorOf(target)].schemaObj
              && var entry := r.table[ConstructorOf(target)].schemaObj[key];
                 && entry.Obj?
                 && forall k :: k in OwnProps(d.defaults) ==> k in entry.props && entry.props[k] == OwnProps(d.defaults)[k]
  {
    if key == "" then Step(false, t)
    else SetFieldOptionsStep(t, ConstructorOf(target), key, MergeOptions(d.defaults, Undefined, t.Keys), designType)
  }

  /**
   * A bare field decorator on a property decorated before sets its defaults
   * over the property's options; the rest of the record stays.
   */
  lemma BareFieldOverEntry(t: Table, d: FieldDecorator, target: Target, key: string, designType: Option<Func>)
    requires key != "" && d.defaults.Obj?
    requires Truthy(Lookup(MetaOf(t, ConstructorOf(target)).schemaObj, key))
    ensures var c := ConstructorOf(target);
            var r := ApplyFieldDecoratorStep(t, d, target, key, designType);
            var meta := MetaOf(t, c);
            && !r.threw
            && r.table[c] == meta.(schemaObj := meta.schemaObj[key := Obj(OwnProps(meta.schemaObj[key]) + d.defaults.props)])
  {
    var c := ConstructorOf(target);
    var options := MergeOptions(d.defaults, Undefined, t.Keys);
    assert options == Obj(d.defaults.props);
    var t1 := Install(t, c);
    assert Standardized(Unwrapped(options), t1.Keys) == options;
    assert FieldEntry(t1[c].schemaObj, key, options, designType, t1.Keys)
        == Some(Obj(OwnProps(t1[c].schemaObj[key]) + d.defaults.props));
  }

  /**
   * A bare field decorator on a property not decorated before sets its
   * defaults over `{type: normalizeType(designType)}`; the rest of the record stays.
   */
  lemma BareFieldSeedsType(t: Table, d: FieldDecorator, target: Target, key: string, designType: Func)
    requires key != "" && d.defaults.Obj?
    requires !Truthy(Lookup(MetaOf(t, ConstructorOf(target)).schemaObj, key))
    ensures var c := ConstructorOf(target);
            var r := ApplyFieldDecoratorStep(t, d, target, key, Some(designType));
            var meta := MetaOf(t, c);
            && !r.threw
            && r.table[c] == meta.(schemaObj := meta.schemaObj[
                 key := Obj(map["type" := NormalizeType(designType, t.Keys + {c})] + d.defaults.props)])
  {
    var c := ConstructorOf(target);
    var options := MergeOptions(d.defaults, Undefined, t.Keys);
    assert options == Obj(d.defaults.props);
    var t1 := Install(t, c);
    assert Standardized(Unwrapped(options), t1.Keys) == options;
    var seed := Obj(map["type" := NormalizeType(designType, t1.Keys)]);
    assert FieldEntry(t1[c].schemaObj, key, options, Some(designType), t1.Keys)
        == Some(Obj(seed.props + d.defaults.props));
  }

  /** A decorator made by `@field(options)` or `@virtuals(options)` applied to a property. */
  function PropertyDecoratorStep(t: Table, dec: PropertyDecorator, target: Target, key: string,
                                 designType: Option<Func>): (r: Step)
    ensures OnlyEntryChanged(t, r.table, ConstructorOf(target))
    ensures dec.VirtualRef? ==>
              && !r.threw
              && r.table[ConstructorOf(target)] == MetaOf(t, ConstructorOf(target)).(virtuals := r.table[ConstructorOf(target)].virtuals)
              && r.table[ConstructorOf(target)].virtuals
                 == MetaOf(t, ConstructorOf(target)).virtuals[key := Descriptor(dec.options, Undefined, Undefined)]
  {
    var c := ConstructorOf(target);
    match dec
    case FieldWith(defaults, options) =>
      SetFieldOptionsStep(t, c, key, MergeOptions(defaults, options, t.Keys), designType)
    case VirtualRef(options) =>
      var meta := MetaOf(t, c);
      Step(false, t[c := meta.(virtuals := meta.virtuals[key := Descriptor(options, Undefined, Undefined)])])
  }

  /** The options `@field([T])` passes on: a one-element array of `{type: normalizeType(T)}`. */
  lemma FieldArrayOptions(elem: Func, registered: set<Func>)
    ensures MergeOptions(FIELD.defaults, Arr([Function(elem)]), registered)
         == Arr([Obj(map["type" := NormalizeType(elem, registered)])])
  {
    MergeOptionsTypeConstructor(FIELD.defaults, Arr([Function(elem)]), registered);
    assert OwnProps(FIELD.defaults) == map[];
  }

  /** Merging `[{type: U}]` over the seed `{type: T}` leaves `[{type: U}]`. */
  lemma ArrayTypeReplacesSeed(seeded: Value, given: Value, registered: set<Func>)
    ensures MergeOptions(Obj(map["type" := seeded]), Arr([Obj(map["type" := given])]), registered)
         == Arr([Obj(map["type" := given])])
  {
    var typed := map["type" := given];
    assert Standardized(Unwrapped(Arr([Obj(typed)])), registered) == Obj(typed);
    AssignOne(map["type" := seeded], "type", given);
    OverwriteOne(map["type" := seeded], "type", given);
  }

  /**
   * `@field([T])` on an array property not decorated before: the entry is
   * `[{type: normalizeType(T)}]`, where T counts as a sub-document when it
   * had metadata before the decorator ran.
   */
  lemma FieldOfArrayType(t: Table, cls: Func, key: string, elem: Func)
    requires !Truthy(Lookup(MetaOf(t, cls).schemaObj, key))
    ensures var r := PropertyDecoratorStep(t, FieldFactory(FIELD, Arr([Function(elem)])), Prototype(cls), key,
                                           Some(ArrayCtor));
            var meta := MetaOf(t, cls);
            && !r.threw
            && r.table[cls] == meta.(schemaObj := meta.schemaObj[key := Arr([Obj(map["type" := NormalizeType(elem, t.Keys)])])])
  {
    var options := MergeOptions(FIELD.defaults, Arr([Function(elem)]), t.Keys);
    FieldArrayOptions(elem, t.Keys);
    FirstDecorationSeedsType(t, cls, key, options, ArrayCtor);
    ArrayTypeReplacesSeed(NormalizeType(ArrayCtor, t.Keys + {cls}), NormalizeType(elem, t.Keys), t.Keys + {cls});
  }

  /** `@schema(options)` applied to the class `cls`: its schema options become `options`. */
  function ClassDecoratorStep(t: Table, dec: ClassDecorator, cls: Func): (r: Table)
    ensures OnlyEntryChanged(t, r, cls)
    ensures r[cls] == MetaOf(t, cls).(options := dec.options)
  {
    t[cls := MetaOf(t, cls).(options := dec.options)]
  }

  /** `statics(target, key)` where `member` is `target[key]`: recorded only when truthy. */
  function StaticsStep(t: Table, target: Target, key: string, member: Value): (r: Table)
    ensures !Truthy(member) ==> r == t
    ensures Truthy(member) ==>
              && OnlyEntryChanged(t, r, ConstructorOf(target))
              && r[ConstructorOf(target)]
                 == MetaOf(t, ConstructorOf(target)).(statics := MetaOf(t, ConstructorOf(target)).statics[key := member])
  {
    if Truthy(member) then
      var c := ConstructorOf(target);
      t[c := MetaOf(t, c).(statics := MetaOf(t, c).statics[key := member])]
    else t
  }

  /**
   * `methods(target, key, descriptor)`: recorded only when `descriptor.value`
   * is a function. On a property there is no descriptor, and reading
   * `descriptor.value` throws before any record is touched.
   */
  function MethodsStep(t: Table, target: Target, key: string, descriptor: Option<Descriptor>): (r: Step)
    ensures r.threw <==> descriptor.None?
    ensures descriptor.None? || !descriptor.value.value.Function? ==> r.table == t
    ensures descriptor.Some? && descriptor.value.value.Function? ==>
              && OnlyEntryChanged(t, r.table, ConstructorOf(target))
              && r.table[ConstructorOf(target)]
                 == MetaOf(t, ConstructorOf(target)).(methods := MetaOf(t, ConstructorOf(target)).methods[key := descriptor.value.value.f])
  {
    if descriptor.None? then Step(true, t)
    else if descriptor.value.value.Function? then
      var c := ConstructorOf(target);
      Step(false, t[c := MetaOf(t, c).(methods := MetaOf(t, c).methods[key := descriptor.value.value.f])])
    else Step(false, t)
  }

  /** A descriptor with a truthy getter or setter. */
  predicate IsAccessor(descriptor: Option<Descriptor>)
  {
    descriptor.Some? && (Truthy(descriptor.value.getter) || Truthy(descriptor.value.setter))
  }

  /**
   * `virtuals(target, key, descriptor)` used bare: an accessor's descriptor is
   * recorded; for anything else the call is taken for `virtuals(options)`
   * and the decorator it returns is dropped.
   */
  function VirtualsStep(t: Table, target: Target, key: string, descriptor: Option<Descriptor>): (r: Table)
    ensures !IsAccessor(descriptor) ==> r == t
    ensures IsAccessor(descriptor) ==>
              && OnlyEntryChanged(t, r, ConstructorOf(target))
              && r[ConstructorOf(target)]
                 == MetaOf(t, ConstructorOf(target)).(virtuals := MetaOf(t, ConstructorOf(target)).virtuals[key := descriptor.value])
  {
    if IsAccessor(descriptor) then
      var c := ConstructorOf(target);
      t[c := MetaOf(t, c).(virtuals := MetaOf(t, c).virtuals[key := descriptor.value])]
    else t
  }

  /** One decorator call, as TypeScript makes it while it defines a class. */
  datatype Decoration =
    | BareField(d: FieldDecorator, target: Target, key: string, designType: Option<Func>)
    | OnProperty(dec: PropertyDecorator, target: Target, key: string, designType: Option<Func>)
    | OnClass(classDec: ClassDecorator, cls: Func)
    | BareStatics(target: Target, key: string, member: Value)
    | BareMethods(target: Target, key: string, descriptor: Option<Descriptor>)
    | BareVirtuals(target: Target, key: string, accessor: Option<Descriptor>)

  /** The function whose record the decoration may touch: `target.constructor`, or the class. */
  function Owner(e: Decoration): Func
  {
    if e.OnClass? then e.cls else ConstructorOf(e.target)
  }

  /** The effect of one decoration. */
  function Apply(t: Table, e: Decoration): (r: Step)
    ensures r.table == t || OnlyEntryChanged(t, r.table, Owner(e))
  {
    match e
    case BareField(d, target, key, designType) => ApplyFieldDecoratorStep(t, d, target, key, designType)
    case OnProperty(dec, target, key, designType) => PropertyDecoratorStep(t, dec, target, key, designType)
    case OnClass(dec, cls) => Step(false, ClassDecoratorStep(t, dec, cls))
    case BareStatics(target, key, member) => Step(false, StaticsStep(t, target, key, member))
    case BareMethods(target, key, descriptor) => MethodsStep(t, target, key, descriptor)
    case BareVirtuals(target, key, accessor) => Step(false, VirtualsStep(t, target, key, accessor))
  }

  /** A run of decorations; the first one that throws ends it, as it ends the class definition. */
  function ApplyAll(t: Table, es: seq<Decoration>): Step
    decreases |es|
  {
    if es == [] then Step(false, t)
    else
      var s := Apply(t, es[0]);
      if s.threw then s else ApplyAll(s.table, es[1..])
  }

  /** Decorations never remove a record: once a function has metadata, it keeps it. */
  lemma {:induction false} ApplyAllKeepsRecords(t: Table, es: seq<Decoration>)
    ensures t.Keys <= ApplyAll(t, es).table.Keys
    decreases |es|
  {
    if es != [] {
      var s := Apply(t, es[0]);
      if !s.threw {
        ApplyAllKeepsRecords(s.table, es[1..]);
      }
    }
  }

  /** Decorations of other classes leave the record of `c` (or its absence) as it was. */
  lemma {:induction false} ApplyAllOthersUntouched(t: Table, es: seq<Decoration>, c: Func)
    requires forall i :: 0 <= i < |es| ==> Owner(es[i]) != c
    ensures c in ApplyAll(t, es).table <==> c in t
    ensures MetaOf(ApplyAll(t, es).table, c) == MetaOf(t, c)
    decreases |es|
  {
    if es != [] {
      var s := Apply(t, es[0]);
      if !s.threw {
        ApplyAllOthersUntouched(s.table, es[1..], c);
      }
    }
  }

  // The decorators, updating the records of the registry in place.

  /** `setFieldOptions(target, key, options)`; `designType` is the property's `design:type`. */
  method SetFieldOptions(reg: Registry, target: Target, key: string, options: Value,
                         designType: Option<Func>) returns (threw: bool)
    modifies reg
    ensures Step(threw, reg.table) == SetFieldOptionsStep(old(reg.table), ConstructorOf(target), key, options, designType)
  {
    var c := ConstructorOf(target);
    var meta := reg.GetMetadata(c);
    var opts := Lookup(meta.schemaObj, key);
    if !Truthy(opts) {
      if designType.None? {
        // normalizeType(undefined) fails on `type.prototype`
        return true;
      }
      opts := Obj(map["type" := NormalizeType(designType.value, reg.table.Keys)]);
    }
    var entry := MergeOptions(opts, options, reg.table.Keys);
    reg.table := reg.table[c := meta.(schemaObj := meta.schemaObj[key := entry])];
    threw := false;
  }

  /** A field decorator used bare, `fieldDecorator(target, key)`. */
  method ApplyFieldDecorator(reg: Registry, d: FieldDecorator, target: Target, key: string,
                             designType: Option<Func>) returns (threw: bool)
    modifies reg
    ensures Step(threw, reg.table) == ApplyFieldDecoratorStep(old(reg.table), d, target, key, designType)
  {
    if key != "" {
      threw := SetFieldOptions(reg, target, key, MergeOptions(d.defaults, Undefined, reg.table.Keys), designType);
    } else {
      threw := false;
    }
  }

  /** The decorator returned by `@field(options)` or `@virtuals(options)`, applied to a property. */
  method ApplyPropertyDecorator(reg: Registry, dec: PropertyDecorator, target: Target, key: string,
                                designType: Option<Func>) returns (threw: bool)
    modifies reg
    ensures Step(threw, reg.table) == PropertyDecoratorStep(old(reg.table), dec, target, key, designType)
  {
    match dec
    case FieldWith(defaults, options) =>
      threw := SetFieldOptions(reg, target, key, MergeOptions(defaults, options, reg.table.Keys), designType);
    case VirtualRef(options) =>
      var c := ConstructorOf(target);
      var meta := reg.GetMetadata(c);
      reg.table := reg.table[c := meta.(virtuals := meta.virtuals[key := Descriptor(options, Undefined, Undefined)])];
      threw := false;
  }

  /** The decorator returned by `@schema(options)`, applied to the class `cls`. */
  method ApplyClassDecorator(reg: Registry, dec: ClassDecorator, cls: Func)
    modifies reg
    ensures reg.table == ClassDecoratorStep(old(reg.table), dec, cls)
  {
    var meta := reg.GetMetadata(cls);
    reg.table := reg.table[cls := meta.(options := dec.options)];
  }

  /** `@statics`; `member` is `target[key]`. */
  method Statics(reg: Registry, target: Target, key: string, member: Value)
    modifies reg
    ensures reg.table == StaticsStep(old(reg.table), target, key, member)
  {
    if Truthy(member) {
      var c := ConstructorOf(target);
      var meta := reg.GetMetadata(c);
      reg.table := reg.table[c := meta.(statics := meta.statics[key := member])];
    }
  }

  /** `@methods`; `descriptor` is None when it decorates a property. */
  method Methods(reg: Registry, target: Target, key: string, descriptor: Option<Descriptor>) returns (threw: bool)
    modifies reg
    ensures Step(threw, reg.table) == MethodsStep(old(reg.table), target, key, descriptor)
  {
    if descriptor.None? {
      // `descriptor.value` on undefined
      return true;
    }
    if descriptor.value.value.Function? {
      var c := ConstructorOf(target);
      var meta := reg.GetMetadata(c);
      reg.table := reg.table[c := meta.(methods := meta.methods[key := descriptor.value.value.f])];
    }
    threw := false;
  }

  /** `@virtuals` used bare on a member. */
  method Virtuals(reg: Registry, target: Target, key: string, descriptor: Option<Descriptor>)
    modifies reg
    ensures reg.table == VirtualsStep(old(reg.table), target, key, descriptor)
  {
    if IsAccessor(descriptor) {
      var c := ConstructorOf(target);
      var meta := reg.GetMetadata(c);
      reg.table := reg.table[c := meta.(virtuals := meta.virtuals[key := descriptor.value])];
    }
  }
}
