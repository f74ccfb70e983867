# mongoose-schema-decorators: the metadata bookkeeping, verified

This package lets a TypeScript class describe a Mongoose schema through
decorators (`@field`, `@required`, `@indexed`, `@unique`, `@schema`,
`@statics`, `@methods`, `@virtuals`). Each decorator does its work before any
Mongoose call is made. It writes into a per-class metadata record,
`__mongoose_meta__`, which holds five parts:

- `schemaObj`, the field options of each property;
- `options`, the schema options;
- `statics`, `methods` and `virtuals`.

`buildSchema` later hands that record to Mongoose. This project models that
bookkeeping in Dafny and proves what it does.

- `js_values.dfy` (module `JsValues`) models the JavaScript values the
  decorators pass around. It covers truthiness, `typeof … === 'function'` and
  `Array.isArray`. It also gives the own enumerable properties that
  `Object.assign` copies: arrays and strings contribute decimal index keys,
  and the index keys are proved distinct by reading them back.
- `meta.dfy` (module `Meta`) models `src/meta.ts`. `MongooseMeta` holds the
  contents of one record. A `Table` maps every function that has a record to
  that record. The `Registry` class holds the table. Its `GetMetadata` method
  installs an empty record on first use and returns the function's record.
- `decorators.dfy` (module `Decorators`) models `src/decorators.ts`.
  `NormalizeType` and `MergeOptions` are pure functions. Each decorator is
  given twice:
  - a `…Step` function on the table, which the lemmas are about;
  - a method on the `Registry` that updates the records in place, proved equal
    to its step function.

  `ApplyAll` runs the decorations of a class definition in order. The first
  decorator that throws stops the run.
- `examples.dfy` (module `Examples`) works through decorated properties of
  `src/test.spec.ts` and `samples/sample.ts`, one property at a time:
  - `@indexed @unique _id: number`, `@field name: string`,
    `@field sub: {prop1: string}` (type Mixed), and
    `@virtuals({ref: 'Service', ...}) services`;
  - `@field(Mongoose.Schema.Types.ObjectId) _id`, alone and under `@indexed`;
  - `@field({ref: 'Customer'}) customer: number`, on a class that already
    has other paths;
  - `@field @indexed name`, `@field(Date) createdDate` and
    `@field([Contact]) contacts` with `Contact` already decorated;
  - `@schema({...})` on a class.

  The model never builds a whole class at once: each lemma starts from an
  arbitrary state of the records that meets its precondition. It also covers
  `@required @field([String])`. For that case the doc comment of
  `makeFieldDecorator` (src/decorators.ts:105-107) promises
  `[{type: String, required: true}]`. The code gives
  `{"0": {type: String}, required: true}` instead, and the model follows the
  code.

How external inputs are represented:

- Reflection (`design:type`) is a parameter, `designType: Option<Func>`. `None`
  stands for `undefined`. On a property without an entry, `normalizeType`
  then throws, and the step reports `threw`. The owner's record has already
  been installed by then.
- `hasMetadata(type)` is imported by `src/decorators.ts` but is not part of
  `src/meta.ts`. It is modelled as "the table has a record for the function",
  which is `Registry.HasMetadata`.
- The set of functions with metadata is passed to `NormalizeType` as
  `registered`. The options a decorator factory builds are computed before
  `setFieldOptions` installs the owner's record, so they see the table as it
  was before the call.

## Model

| member | source | states |
|---|---|---|
| JsValues.IndexEntries | src/decorators.ts:144 | the properties `Object.assign` copies from an array: every element under its decimal index key, and every key is the index key of an element |
| JsValues.IndexOfIndexKey | src/decorators.ts:144 | reading an index key back as a decimal number gives the index |
| JsValues.IndexKeyInjective | src/decorators.ts:144 | distinct array indices give distinct property keys, so no element of a spread array overwrites another |
| JsValues.OwnProps | src/decorators.ts:144 | an object contributes its own properties, an array its elements under their index keys and no other key, and null, undefined, booleans, numbers, functions and Schema objects contribute nothing |
| JsValues.SingletonArrayProps | src/decorators.ts:144 | a one-element array contributes exactly the key "0" holding its element |
| Meta.Install | src/meta.ts:14-26 | `getMetadata(c)` adds exactly `c` to the functions with records, leaves every existing record as it was, gives a function without a record the empty record, and leaves `c` with the record the call returns |
| Meta.InstallIdempotent | src/meta.ts:15-25 | a second `getMetadata(c)` finds the record the first installed, changes nothing and returns the same record |
| Meta.Registry.HasMetadata | src/decorators.ts:201 | `hasMetadata(c)` holds exactly when `getMetadata(c)` would change nothing, because `c` already carries a record |
| Meta.Registry.GetMetadata | src/meta.ts:14-26 | afterwards `target` has metadata and the result is its record. An existing record is returned with no change anywhere. A function without one gets `{schemaObj: {}, options: [], statics: [], methods: [], virtuals: []}`. No other function's record changes |
| Decorators.NormalizeType | src/decorators.ts:181-206 | the result is always a type Mongoose accepts. The type itself comes back exactly for Boolean, Date, Number, String and SchemaType subclasses. A sub-schema comes back exactly for other functions that have metadata, and it is that function's |
| Decorators.NormalizeTypePriority | src/decorators.ts:181-206 | the six rules in their order: acceptable built-ins, SchemaType subclasses, ObjectId to `Schema.Types.ObjectId`, Array to `[Mixed]`, classes with metadata to their sub-schema, anything else to Mixed |
| Decorators.NormalizeTypeRegistryIndependent | src/decorators.ts:200-203 | metadata changes the result only for the functions that reach the sub-document rule |
| Decorators.MergeOptions | src/decorators.ts:137-146 | the result is a one-element array exactly when `options` is an array, and otherwise a plain option map. Its keys are those of `defaults` and of the (unwrapped, standardised) options. Every option key overrides `defaults`, and keys only in `defaults` keep their values |
| Decorators.MergeOptionsTypeConstructor | src/decorators.ts:139-143 | a type constructor given as options, alone or as the single array element, becomes `type: normalizeType(T)` over the defaults |
| Decorators.MergeOptionsNoOptions | src/decorators.ts:144 | without options the result is a copy of the defaults' properties |
| Decorators.FlagDecoratorsContributeTheirFlag | src/decorators.ts:26-41 | bare `@field`, `@required`, `@indexed` and `@unique` pass on `{}`, `{required: true}`, `{index: true}` and `{unique: true}` |
| Decorators.FieldFactory | src/decorators.ts:122-127 | `fieldDecorator(options)` returns a decorator that, applied to a property, is `setFieldOptions(target, key, mergeOptions(defaults, options))`. The merge sees the metadata as it was before the owner's record is installed |
| Decorators.SchemaFactory | src/decorators.ts:13-20 | `schema(options)` makes a class decorator exactly for a truthy non-function argument, and that decorator carries the argument |
| Decorators.BareSchemaDoesNothing | src/decorators.ts:13-20 | bare `@schema` is the call `schema(C)` with a function, which makes no decorator |
| Decorators.FieldEntry | src/decorators.ts:157-163 | there is no entry to store exactly when the property has no truthy entry and its design type is undefined, the case where `normalizeType` throws |
| Decorators.SetFieldOptionsStep | src/decorators.ts:155-164 | `setFieldOptions` installs the owner's record and changes only its `schemaObj`. It adds only `propertyKey` and leaves the other entries as they were. It throws exactly when there is no truthy entry and no design type, and then leaves the record as `getMetadata` left it |
| Decorators.FirstDecorationSeedsType | src/decorators.ts:158-163 | on a property without an entry, the stored entry is the options merged over `{type: normalizeType(designType)}`, with every function that has metadata by then counting as a sub-document. Nothing else in the record changes |
| Decorators.RedecorationMerges | src/decorators.ts:157-163 | on a property with an entry, the later decorator's options win, and options only in the earlier entry survive |
| Decorators.ApplyFieldDecoratorStep | src/decorators.ts:119-121 | a bare field decorator with a falsy key changes nothing. Otherwise it changes only the owner's record, and, when it does not throw, the entry holds every default of the decorator |
| Decorators.BareFieldOverEntry | src/decorators.ts:119-121 | a bare field decorator on a decorated property sets its defaults over the existing options and changes nothing else in the record |
| Decorators.BareFieldSeedsType | src/decorators.ts:119-121 | a bare field decorator on an undecorated property stores its defaults over `{type: normalizeType(designType)}` and changes nothing else in the record |
| Decorators.PropertyDecoratorStep | src/decorators.ts:122-126 | a factory-made decorator changes only the record of `target.constructor`. The one `@virtuals(options)` returns stores `{value: options}` under the property and changes nothing else |
| Decorators.FieldArrayOptions | src/decorators.ts:137-146 | `@field([T])` passes on `[{type: normalizeType(T)}]` |
| Decorators.ArrayTypeReplacesSeed | src/decorators.ts:137-146 | merging `[{type: U}]` over the seeded `{type: T}` leaves `[{type: U}]` |
| Decorators.FieldOfArrayType | src/decorators.ts:155-164 | `@field([T])` on an undecorated array property stores `[{type: normalizeType(T)}]`. T is a sub-document when it had metadata before the decorator ran. Nothing else in the record changes |
| Decorators.ClassDecoratorStep | src/decorators.ts:15-18 | the class's schema options become the given options, and only its record changes |
| Decorators.StaticsStep | src/decorators.ts:48-52 | a falsy member changes nothing. A truthy one is recorded under its key in the statics of `target.constructor`, and nothing else changes |
| Decorators.MethodsStep | src/decorators.ts:60-64 | without a descriptor (`@methods` on a property) the call throws and changes nothing. Only a function `descriptor.value` is recorded under its key in the methods of `target.constructor`. Any other descriptor changes nothing |
| Decorators.VirtualsStep | src/decorators.ts:82-93 | bare `@virtuals` records the descriptor exactly when it has a getter or a setter. Otherwise the returned decorator is dropped and nothing changes |
| Decorators.Apply | src/decorators.ts:13-130 | a decoration changes nothing or only the record of the function it belongs to |
| Decorators.ApplyAllKeepsRecords | src/meta.ts:14-26 | a run of decorations never removes a record |
| Decorators.ApplyAllOthersUntouched | src/decorators.ts:48-93 | decorations whose target is another function leave a function's record, or its absence, as it was |
| Decorators.SetFieldOptions | src/decorators.ts:155-164 | the in-place update has exactly the effect of `SetFieldOptionsStep` on the registry, and reports the throw |
| Decorators.ApplyFieldDecorator | src/decorators.ts:119-121 | the in-place update has exactly the effect of `ApplyFieldDecoratorStep` |
| Decorators.ApplyPropertyDecorator | src/decorators.ts:122-126 | the in-place update has exactly the effect of `PropertyDecoratorStep` |
| Decorators.ApplyClassDecorator | src/decorators.ts:15-18 | the in-place update has exactly the effect of `ClassDecoratorStep` |
| Decorators.Statics | src/decorators.ts:48-52 | the in-place update has exactly the effect of `StaticsStep` |
| Decorators.Methods | src/decorators.ts:60-64 | the in-place update has exactly the effect of `MethodsStep`, and reports the throw |
| Decorators.Virtuals | src/decorators.ts:82-93 | the in-place update has exactly the effect of `VirtualsStep` |
| Examples.UniqueNumberId | src/test.spec.ts:14-15 | `@unique _id: number` on a new class leaves the record with the single path `_id: {type: Number, unique: true}` |
| Examples.IndexedOverUniqueId | src/test.spec.ts:13-15 | `@indexed` over that entry adds `index: true` and keeps the rest |
| Examples.IndexedUniqueNumberId | src/test.spec.ts:13-15 | `@indexed @unique _id: number` gives one path of type Number that is unique and indexed, and nothing else |
| Examples.FieldOnStringProperty | src/test.spec.ts:17-18 | bare `@field` on a `string` property gives the path `{type: String}` |
| Examples.FieldWithObjectIdSchemaType | src/test.spec.ts:30-31 | `@field(Mongoose.Schema.Types.ObjectId)` on an undecorated `_id` gives `{type: Schema.Types.ObjectId}` and leaves the other paths |
| Examples.IndexedOverObjectId | samples/sample.ts:17-19 | `@indexed` over that entry adds `index: true` |
| Examples.IndexedObjectId | samples/sample.ts:17-19 | `@indexed @field(Mongoose.Schema.Types.ObjectId) _id` gives `{type: Schema.Types.ObjectId, index: true}` and leaves the other paths |
| Examples.FieldWithRefOnNumber | src/test.spec.ts:39-40 | `@field({ref: 'Customer'})` on an undecorated `number` property gives `{type: Number, ref: 'Customer'}`, whatever paths the class already has, and leaves them as they were |
| Examples.IndexedName | samples/sample.ts:58-59 | `@indexed` on an undecorated `string` property gives `{type: String, index: true}` |
| Examples.FieldOverIndexedEntry | samples/sample.ts:57-59 | a bare `@field` over that entry leaves the record as it was |
| Examples.FieldOverIndexedName | samples/sample.ts:57-59 | `@field @indexed name: string` gives `{type: String, index: true}` and leaves the other paths |
| Examples.FieldWithDate | samples/sample.ts:61-62 | `@field(Date)` on an undecorated `Date` property gives `{type: Date}` |
| Examples.FieldOnObjectLiteralType | src/test.spec.ts:46-49 | bare `@field` on a property typed by an object literal (design type `Object`, no metadata) gives `{type: Mixed}` |
| Examples.FieldOfDecoratedClassArray | samples/sample.ts:64-65 | `@field([Contact])` after `Contact` was decorated gives `[{type: <Contact's sub-schema>}]` |
| Examples.VirtualServicesReference | src/test.spec.ts:20-26 | `@virtuals({ref: 'Service', ...})` stores the options as the value of the `services` virtual and leaves the schema paths alone |
| Examples.SchemaOptionsRecorded | samples/sample.ts:31 | `@schema({...})` with an option object makes a decorator, and that decorator sets the class's schema options to the object |
| Examples.RequiredOverOneElementArray | src/decorators.ts:137-146 | `@required` over a one-element-array entry gives an object with the element under "0" and `required: true` |
| Examples.RequiredOverArrayField | src/decorators.ts:155-164 | `@required @field([String])` stores `{"0": {type: String}, required: true}`, not a one-element array |
| Examples.StaticMemberRecordsUnderFunction | src/decorators.ts:48-52 | `@statics` on a static member records under `Function`, the constructor of the class object, and leaves the class's own record as it was |

## Left out

- `src/build-schema.ts` is not part of this model. `buildSchema` and its helpers only call Mongoose's `Schema` API. The sub-schema that `normalizeType` builds for a class with metadata is the opaque value `Schema(cls)`.
- The `reflect-metadata` lookup of `design:type` is not modelled; the design type is a parameter of the decorator steps.
- Mongoose's type classes and the `instanceof Mongoose.SchemaType` test are tags of `Func` (`SchemaTypeCtor`, `ObjectIdCtor`). Functions are opaque tokens; getters, setters and methods are never called.
- Records are looked up by function in a flat table. Inheritance of `__mongoose_meta__` through the prototype chain is not modelled. In the source, a subclass of a decorated class sees and updates its parent's record.
- Meta.Registry.GetMetadata: returns the record's contents rather than a shared object. The decorators write the updated contents back under the same function. Aliasing of one record object by several functions is therefore not modelled.
- Property enumeration order in `schemaObj` and in merged options is not modelled; maps are unordered.
- Numbers are integers; NaN, floating point and `-0` are not modelled, so their truthiness is not modelled either.
- Keys inherited from `Object.prototype` are not modelled. The source looks them up on the plain-object `schemaObj`, for example a property named `constructor`. The model treats them as absent.
- Own properties of functions and of Schema objects are taken as empty for `Object.assign`.
- The function that bare `@virtuals` or a bare field decorator with a falsy key returns is not modelled; it is treated as dropped. TypeScript would install a method decorator's returned value as the member's descriptor.
- JsValues.Chars: splits a string into Unicode code points, one key each. `Object.assign` splits a string into UTF-16 code units, so a character outside the Basic Multilingual Plane gives two keys in the source and one in the model.
- Meta.MongooseMeta: `statics`, `methods` and `virtuals` start as arrays in the source (src/meta.ts:19-22). They are used as string-keyed maps. A member named `length` would set that array's length instead: a non-number value throws a RangeError at src/decorators.ts:50, 62, 84 and 90. The model treats `length` as an ordinary key.
- `samples/sample.ts` is not part of this model beyond its decorated properties. Its `save()` calls and other database I/O are left out.
