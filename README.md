# matproplib, modelled in Dafny

This project models the core of matproplib, a Python library of material
properties for fusion power plant design. In the library's own terms:

- **Materials** have a name, an element composition, property fields and a
  registry of converters. They are made by the `material` factory from a
  property group. The abstract `Material` base cannot be instantiated.
- **Mixtures** are materials made by `mixture` from `(material, fraction)`
  pairs. The element compositions are blended as a fraction-weighted sum and
  renormalised. For atomic and mass mixing, the input fractions are
  normalised ("void check"). Each property name of the constituents becomes
  one of three things: the caller's override, an undefined property, or a
  `Mixture` property. A `Mixture` property evaluates to the fraction-weighted
  sum of its constituents' values. Scalar results are broadcast against one
  array size, and a unit mismatch is warned about once.
- **Operational conditions** hold temperature, pressure and the other
  conditions. Bare values are wrapped in the condition's default unit, and
  array lengths are reconciled. **Condition configurations** are parsed from
  shorthand tuples, their default units are filled in, and they are used to
  re-express and bound-check conditions. The standard temperature and
  pressure conditions are fixed.
- **Physical properties** (the independent quantities) accept several input
  shapes. Each is normalised to its class's default unit. Temperatures must
  not be negative.
- **Property groups** are built by `props`, which decides which names enter
  the schema and with which type. Groups list their defined and undefined
  properties, and bind themselves into dependent properties that ask for
  their owner.
- **References** are collections keyed by id and merged with `combine`.
- **Converters** are registered by name. The neutronics converters write
  OpenMC, Fispact, MCNP and Serpent material cards; the MCNP converter
  numbers materials from a shared counter. The MatML 3.1 converter exports a
  material as a MatML document and imports one back. It does this by
  renaming properties, splitting delimited data, mapping units, writing a
  chemical formula, grouping property data by id and searching the XML tree
  for the document node.

Each Python module is one Dafny module, named after it:

| Dafny module | Python module |
|---|---|
| `Base` | `base.py` |
| `Values` | numpy-valued quantities |
| `Independent` | `properties/independent.py` |
| `Group` | `properties/group.py` |
| `Conditions` | `conditions.py` |
| `ConvertersBase` | `converters/base.py` |
| `Material` | the `Material` and `material` part of `material.py` |
| `Mixing` | the composition arithmetic of `material.py` |
| `MixtureFactory` | `mixture` and the property decorator of `material.py` |
| `MixtureProperty` | `properties/mixture.py` |
| `NeutronicsConverters` | `converters/neutronics.py` |
| `NeutronicsCards` | `tools/neutronics.py` |
| `MatmlConverter` | `converters/matml.py` |
| `MatmlUtilities` | `tools/matml/utilities.py` |
| `MatmlDocument` | `tools/matml/matml.py` |

`Wrappers`, `Dicts` and `Strings` are helpers. They provide the `Result` and
`Option` types, insertion-ordered dicts (`seq<(string, V)>`, where setting a
key replaces its entry in place or appends it) and text functions.

The modelling conventions are:

- Floats are `real`. Python exceptions are `Err` values naming the exception.
- Code that updates state in place is imperative Dafny: classes with fields,
  and methods with loops. Each such method is proved against a function that
  states its result, and the lemmas about that function state what the
  library promises.
- Collaborators whose code is not part of this model are parameters:
  - pint unit conversion;
  - the nucleides module's fraction conversions;
  - evaluation of dependent properties;
  - float formatting and parsing;
  - the XML parser.

## Model

| member | source | states |
|---|---|---|
| Base.ListToDict | matproplib/base.py:92-106 | the collection built from a list, a single reference or a mapping has distinct ids; a single reference becomes a one-entry map under its id; a mapping passes through |
| Base.ListKeyedById | matproplib/base.py:94-100 | a list of references is keyed by id: looking up an id gives the last entry with that id, and every entry is stored under its own id |
| Base.References.constructor | matproplib/base.py:87-106 | the collection's `root` is the normalised input |
| Base.References.Combine | matproplib/base.py:117-122 | `combine` writes every entry of another collection, in order, or the single reference under its id, into `root` in place |
| Base.SetAllGet | matproplib/base.py:117-120 | after combining, an id of the addition maps to the addition's last entry for it, and every other id keeps its old entry |
| Base.CombineKeyed | matproplib/base.py:117-122 | combining collections keyed by id keeps the result keyed by id |
| Base.VisibleFields | matproplib/base.py:178-182 | an entry is yielded exactly when it is a declared field whose name neither starts with "_" nor is "reference" |
| Base.Iterate | matproplib/base.py:168-185 | iteration yields exactly the visible declared fields and the extras, and ends with the extras in order |
| Base.ListNames | matproplib/base.py:263-281 | a name is listed exactly when some field with that name is selected by the mode: all, only defined, or only undefined |
| Base.ListPartition | matproplib/base.py:271-281 | listing everything gives every name in order, and the defined and the undefined listings together are a permutation of it |
| Base.ListEverything | matproplib/base.py:273 | `include_undefined=True` lists every field name in order |
| Base.ListSplit | matproplib/base.py:274-281 | the defined and the undefined listings together hold every name exactly as often as the fields do |
| Base.ListDisjoint | matproplib/base.py:274-281 | with distinct field names, no name is listed both as defined and as undefined |
| Base.Bind | matproplib/base.py:159-165 | `partial(f, owner)` is a partial whose remaining parameters are all but the first |
| Base.InjectMeaning | matproplib/base.py:149-165 | the owner is bound into a plain callable exactly when its signature has "properties" or "self"; a wrapped callable changes exactly when its inner or its call signature asks; no value, no dependence and partials are left alone |
| Base.Group.InjectGroup | matproplib/base.py:140-166 | after validation every public attribute holding a dependent property has its value rebound, every other attribute and the order are kept |
| Values.Squeeze | matproplib/base.py:206-218 | squeezing keeps the data and its well-formedness and leaves no dimension of length 1 |
| Values.SqueezeKeepsSize | matproplib/base.py:217 | removing dimensions of length 1 keeps the number of entries |
| Values.AllClose | matproplib/properties/independent.py:127 | `np.allclose` fails exactly when the shapes do not broadcast (a one-entry value broadcasts against any value; otherwise the shapes must agree), and is true only when every broadcast pair, the one entry paired with each entry of the other value, is close |
| Values.AllCloseBroadcasts | matproplib/properties/independent.py:127 | a one-entry array is close to two equal entries and not to two different ones, an empty array broadcasts against a one-entry one, and shapes (2,) and (3,) do not broadcast |
| Values.AllCloseReflexive | matproplib/properties/independent.py:125-129 | every well-formed value is all-close to itself |
| Values.ConvertValue | matproplib/properties/independent.py:110-111 | a value re-expressed in another unit succeeds exactly when every entry converts, keeps its size and shape, and holds the converted entries |
| Independent.ClassOf | matproplib/properties/independent.py:185-248 | each of the eight property kinds has its class name and its default unit: K, Pa, T, "", dpa, 1/m^2, A/m^2, m^3 |
| Independent.DefineSubclass | matproplib/properties/independent.py:38-52 | declaring a subclass succeeds exactly when it sets a default unit, and fails with a ValueError otherwise |
| Independent.ValueEntry | matproplib/properties/independent.py:54-73 | a number, array or list gives the value with no unit; a Quantity gives magnitude and unit; a pair gives value and unit; a dict whose value is a Quantity or pair is unpacked the same way; any other input is refused |
| Independent.ArrayValidation | matproplib/base.py:206-218 | an ndarray is squeezed keeping its entries, a list becomes a one-dimensional array, a number stays a float |
| Independent.UnitConversion | matproplib/base.py:65-84 | a conversion succeeds exactly when pint converts every entry, and a failure is a ValueError naming both units |
| Independent.Construct | matproplib/properties/independent.py:33-36 | constructing PhysicalProperty itself raises NotImplementedError; a constructed property has its class and the class's default unit, and a Temperature has no entry below 0 |
| Independent.ConstructValue | matproplib/properties/independent.py:75-96 | an input in the default unit (or with none) keeps its squeezed value; in another unit construction succeeds exactly when the value converts, and holds the converted value |
| Independent.TemperatureNonNegative | matproplib/properties/independent.py:190-206 | a Temperature given in kelvin is refused exactly when some entry is below 0 |
| Independent.ValueAs | matproplib/properties/independent.py:98-116 | `value_as(u)` keeps the size and holds each entry converted to `u`; it fails, with a ValueError, exactly when some entry cannot be converted |
| Independent.ValueAsOwnUnit | matproplib/properties/independent.py:98-111 | asking for the property's own unit gives its entries back |
| Independent.Equal | matproplib/properties/independent.py:118-129 | comparing raises exactly for properties of one class whose values do not broadcast |
| Independent.EqualMeaning | matproplib/properties/independent.py:125-129 | two properties are equal exactly when they have the same class, all-close values and the same unit |
| Independent.EqualBroadcast | matproplib/properties/independent.py:118-129 | a temperature of [300.0] K equals one of [300.0, 300.0] K |
| Independent.EqualReflexive | matproplib/properties/independent.py:118-129 | every well-formed property equals itself |
| Group.DefaultProperties | matproplib/properties/group.py:75-110 | the default group holds the eighteen named properties, in declaration order, each an UndefinedProperty, followed by an undefined superconducting parameterisation |
| Group.DefaultPropertiesListing | matproplib/properties/group.py:75-110 | listing the default group's undefined properties gives the eighteen names in order; listing its defined ones gives only the superconducting parameterisation, which is not an UndefinedProperty |
| Group.GetItem | matproplib/properties/group.py:58-60 | item access succeeds exactly when the group has the name, returns the value stored under it, and otherwise fails with an AttributeError naming it |
| Group.GetItemField | matproplib/properties/group.py:58-60 | in a group with distinct names, item access by a field's name gives that field's value |
| Group.SuperconductionValidation | matproplib/properties/group.py:65-72 | a dict is validated into the class of the field's default or default factory; an instance, or a field with neither, passes unchanged |
| Group.GetDppType | matproplib/properties/group.py:229-242 | a property instance gives its own class; a dict with "unit" and "value" gives a new class named after the property with that unit; a dict with "unit" but no "value" is a ValueError about the missing default; anything else is a ValueError naming the property |
| Group.MakeSlot | matproplib/properties/group.py:204-216 | a name of the property group always gets a field; the field's default is UndefinedProperty exactly when the argument was True |
| Group.Schema | matproplib/properties/group.py:198-220 | a successful schema has exactly the names whose argument is neither False nor None, in order; when every such name belongs to the property group the schema cannot fail |
| Group.Props | matproplib/properties/group.py:126-226 | `props` returns a field exactly when `as_field` is set, and a group instance otherwise |
| Group.PropsNames | matproplib/properties/group.py:166-220 | the group `props` builds declares exactly the kept names of the keyword arguments, the named properties first, then the superconducting parameterisation, then the extras |
| Group.PropsEmpty | matproplib/properties/group.py:159-165 | `props()` with every argument at its default gives an empty group |
| Group.NothingKept | matproplib/properties/group.py:217-219 | when every argument is False or None the schema is empty |
| Group.SchemaSlots | matproplib/properties/group.py:204-216 | each field of a successful schema keeps the property group's annotation for its own names, takes the type `_get_dpp_type` makes for an extra, and has an undefined default exactly when its argument was True |
| ConvertersBase.ByName | matproplib/converters/base.py:33 | each converter of a list is paired with its own name, in order |
| ConvertersBase.Validation | matproplib/converters/base.py:30-36 | a single converter becomes a one-entry registry under its name; a dict passes unchanged; a list gives distinct names, each mapped to the last converter of that name |
| ConvertersBase.ListKeyedByName | matproplib/converters/base.py:32-33 | a registry built from a list has an entry under a name exactly when some converter has that name, and the entry is a converter of that name |
| ConvertersBase.Lookup | matproplib/converters/base.py:41-42 | lookup succeeds exactly when the name is present, gives the stored converter, and otherwise fails with a KeyError |
| ConvertersBase.AddLookup | matproplib/converters/base.py:27-28 | after an add, the converter is found under its name and every other name finds what it found before |
| ConvertersBase.Converters.constructor | matproplib/converters/base.py:24-36 | the registry's root is the validated input |
| ConvertersBase.Converters.Empty | matproplib/converters/base.py:25 | the default registry is empty |
| ConvertersBase.Converters.Add | matproplib/converters/base.py:27-28 | `add` inserts or replaces the entry under the converter's name and leaves every other name's lookup unchanged |
| ConvertersBase.Converters.GetItem | matproplib/converters/base.py:41-42 | item access succeeds exactly when the name is registered, and otherwise fails with a KeyError |
| ConvertersBase.Converters.GetAttr | matproplib/converters/base.py:44-47 | attribute access to "root" gives the registry's dict; any other name is an item lookup, succeeding and failing with it |
| ConvertersBase.Converters.SetAttr | matproplib/converters/base.py:49-52 | setting any name but "root" stores the value under that name; setting "root" to a converter fails with a TypeError, because the converter it just installed as the root does not support item assignment |
| Conditions.WrapBare | matproplib/conditions.py:94-99 | a value that is neither None, a dict nor a property becomes a `{"value": v}` entry; everything else is left as it is |
| Conditions.ValueOnly | matproplib/conditions.py:84-100 | `_value_only` keeps the same keys and rewrites every entry as `WrapBare` does |
| Conditions.WrapKeepsEntry | matproplib/conditions.py:94-99 | wrapping a bare number, quantity or (value, unit) pair into `{"value": v}` does not change the value entry it stands for |
| Conditions.BareTakesDefaultUnit | matproplib/conditions.py:84-100 | a bare number, array or list given for a condition becomes a property of that condition's class in its default unit, with the validated array as its value |
| Conditions.ValidateField | matproplib/conditions.py:48-53 | a validated condition has its field's class; temperature is required and always set; an omitted optional condition is None |
| Conditions.CollectFields | matproplib/conditions.py:45-54 | construction succeeds exactly when every field validates, keeps every validated field in order, and otherwise reports the first failing field's error |
| Conditions.FieldResults | matproplib/conditions.py:48-53 | the six fields are validated in declaration order, an omitted name counting as unset |
| Conditions.Rebuild | matproplib/conditions.py:137-144 | a rebuilt condition keeps its class and unit and holds `n` copies of its first entry |
| Conditions.AllValuesSameLength | matproplib/conditions.py:102-145 | `_all_values_same_length` fails exactly when two arrays of sizes other than 1 disagree, broadcasts every float or size-1 field when the starting length and the common length differ, and otherwise leaves the fields unchanged |
| Conditions.SpreadFields | matproplib/conditions.py:133-144 | the rewrite loop replaces every float or size-1 field by a constant array of the common length and leaves every other field alone |
| Conditions.OldLengthStep | matproplib/conditions.py:121-130 | the starting length drops to 0 at the first optional condition that is unset or not an array, and is kept otherwise |
| Conditions.CompatibleStep | matproplib/conditions.py:121-128 | the size check at each field extends the compatibility of the fields seen so far |
| Conditions.CommonLengthMeaning | matproplib/conditions.py:118-128 | the common length is 1 or the size of some array field, and every array field has size 1 or the common length |
| Conditions.SpreadUniform | matproplib/conditions.py:132-144 | after a broadcast every set condition is an array of the common length, 0-dimensional when that length is 1 |
| Conditions.UniformSettled | matproplib/conditions.py:102-145 | conditions that are already arrays of one common length pass the check unchanged |
| Conditions.SameLengthIdempotent | matproplib/conditions.py:102-145 | validating the output of `_all_values_same_length` again leaves it unchanged |
| Conditions.SameLengthSizes | matproplib/conditions.py:118-144 | after the check every set condition has the common length, unless that length is 0 and nothing needed broadcasting |
| Conditions.SettledByProfile | matproplib/conditions.py:102-145 | conditions the check leaves unchanged stay so when their values are replaced by values of the same kinds and sizes |
| Conditions.MakeConditions | matproplib/conditions.py:45-145 | construction wraps bare values, validates the six fields, then reconciles their lengths, stopping at the first error |
| Conditions.ConditionsMeaning | matproplib/conditions.py:45-145 | constructed conditions have six fields with temperature set, each set field of its condition's class in its default unit, with lengths already reconciled |
| Conditions.ConvertToStructure | matproplib/conditions.py:155-171 | an empty tuple is an IndexError; a tuple of one or of more than three items is refused; a tuple that parses always sets a lower bound |
| Conditions.ShorthandRoundTrip | matproplib/conditions.py:155-166 | every configuration written in its shortest form (a unit, a bounds pair, a (unit, lower) pair or a (unit, lower, upper) triple) reads back as itself |
| Conditions.TupleForms | matproplib/conditions.py:159-165 | a numeric pair is (lower, upper), a pair led by a unit is (unit, lower), a triple led by a unit is (unit, lower, upper), and a triple led by a number is refused |
| Conditions.KnownDefault | matproplib/conditions.py:193-201 | exactly the five declared conditions have a default unit |
| Conditions.SettleEntry | matproplib/conditions.py:223-231 | every entry that settles carries a unit |
| Conditions.ConfiguredUnit | matproplib/conditions.py:222-232 | once the units are set, every configured condition has a unit |
| Conditions.Extras | matproplib/conditions.py:202 | the extra entries are exactly supplied entries not named like a declared condition |
| Conditions.ConfigEntries | matproplib/conditions.py:190-202 | iteration yields the five declared conditions first, in declaration order |
| Conditions.PassDefaultUnits | matproplib/conditions.py:221-232 | `_pass_int_default_unit` succeeds exactly when every entry settles, then keeps each entry's name and settled configuration in order; otherwise it reports the error of an entry that does not settle |
| Conditions.MakeConditionConfig | matproplib/conditions.py:190-232 | a configuration starts with the five declared conditions, every entry has a unit, and it fails exactly when some entry cannot settle |
| Conditions.KnownDefaults | matproplib/conditions.py:193-201 | a declared condition that is not supplied is configured in its default unit (K, Pa, T, dimensionless, dpa) with no bounds |
| Conditions.KnownWithoutUnit | matproplib/conditions.py:227-231 | a declared condition supplied without a unit keeps its bounds and takes its default unit |
| Conditions.ExtraNeedsUnit | matproplib/conditions.py:227-230 | an extra condition given without a unit is a ValueError |
| Conditions.ModifyField | matproplib/conditions.py:254-273 | a modified condition is set exactly when it was set, and keeps the kind and size of its value |
| Conditions.ModifyResults | matproplib/conditions.py:254-273 | every condition is modified in field order |
| Conditions.ModifyConditions | matproplib/conditions.py:240-278 | `modify_conditions` as intended (see Findings): each condition is modified in turn, stopping at the first failing conversion, then the new conditions' lengths are checked with the converted values as arrays |
| Conditions.ModifyMeaning | matproplib/conditions.py:240-278 | for the intended `modify_conditions` on constructed conditions, the result fails exactly when some condition's conversion fails, and otherwise holds exactly the modified conditions |
| Conditions.Reexpressed | matproplib/conditions.py:255-270 | a condition is re-expressed only when it is set, configured, and in another unit |
| Conditions.AsQuantities | matproplib/conditions.py:116-130 | a condition that holds a Quantity is not an ndarray to the length check and counts as one value |
| Conditions.SameLengthAsWritten | matproplib/conditions.py:116-144 | the length check on conditions holding Quantities: with none it is the check on arrays; when it rewrites, every Quantity's magnitude fits `np.full` at the common length |
| Conditions.ModifiedAsWrittenSpec | matproplib/conditions.py:240-278 | `modify_conditions` as written, where a re-expressed condition keeps its unvalidated Quantity default; when no condition is re-expressed it agrees with the intended one |
| Conditions.LoneQuantityRefused | matproplib/conditions.py:116-144 | a re-expressed temperature with more than one entry and no other condition set is refused as written, but kept by the intended check |
| Conditions.TwoTemperaturesConverted | matproplib/conditions.py:254-273 | temperature [300, 400] K configured in degrees Celsius becomes the modified temperature [26.85, 126.85] degC, the other conditions unset |
| Conditions.ModifiedTwoTemperatures | matproplib/conditions.py:240-278 | on that input, as written `modify_conditions` raises a ValueError, while the intended one returns the converted temperatures |
| Conditions.ModifyFieldMeaning | matproplib/conditions.py:255-273 | a condition is unchanged unless it is configured in another unit; then it is converted into that unit under a "Modified_" class and fails only when the conversion is impossible |
| Conditions.CheckFrom | matproplib/conditions.py:304-315 | the check from a field onwards passes exactly when no remaining condition has every entry beyond a configured bound |
| Conditions.CheckConditions | matproplib/conditions.py:293-315 | `check_conditions` fails exactly when some condition has every entry beyond a configured bound, or is unset while a bound is configured |
| Conditions.CheckWithinBounds | matproplib/conditions.py:303-315 | a condition with one entry within both of its bounds passes, and an unset condition without configuration passes |
| Conditions.StpFieldResults | matproplib/conditions.py:318-322 | the standard conditions validate six fields, taking the standard temperature and pressure when these are not supplied |
| Conditions.MakeStp | matproplib/conditions.py:318-333 | construction of the standard conditions wraps, validates, reconciles lengths, and refuses any temperature or pressure other than the standard one |
| Conditions.StpFixed | matproplib/conditions.py:324-333 | standard conditions always hold 273.15 K and 100000 Pa |
| Conditions.StpDefault | matproplib/conditions.py:318-333 | with nothing supplied the standard conditions hold the standard temperature and pressure, each as a 0-dimensional array, and nothing else |
| Conditions.StpDefaultLengths | matproplib/conditions.py:102-145 | the length check turns the two standard floats into 0-dimensional arrays with the same values |
| Conditions.StpCopyKeeps | matproplib/conditions.py:335-348 | copying standard conditions gives plain conditions with the same fields |
| Material.PropertyEntries | matproplib/material.py:217-221 | the entries iteration yields that are dependent physical properties are exactly the visible property fields, with distinct names when the fields have them |
| Material.ListPropertiesOf | matproplib/material.py:199-221 | a name is listed exactly when it is a visible dependent physical property selected by `include_undefined`: every property for True, the defined ones for False, the undefined ones for None |
| Material.ListPropertiesPartition | matproplib/material.py:199-221 | the defined and the undefined properties together are every property, as a multiset, and no name is both |
| Material.MixedNotListed | matproplib/material.py:220 | a mixed value is not a dependent physical property and is never listed, whatever `include_undefined` is |
| Material.CombineRefsAsWritten | matproplib/material.py:335-340 | `combine_refs` as written returns the group's reference only when no reference was given; with both it returns None, because `combine` returns nothing |
| Material.CombineRefs | matproplib/material.py:335-340 | `combine_refs` as intended (see Findings): None only when neither is given; either one alone is kept; with both, an id the group gives maps to the group's reference and every other id to the given one |
| Material.CallerReferenceKept | matproplib/material.py:335-340 | a reference given next to a property group is lost as written, while the intended combination keeps every id the caller gave |
| Material.ExtraArguments | matproplib/material.py:348 | the extras of a properties dict are exactly its entries not named like a property of the default group |
| Material.PropertyFields | matproplib/material.py:342-368 | None and a plain Properties instance add no fields and keep the reference; a field made by `props` adds its schema's fields and the reference becomes `combine_refs` as written, so a given reference is lost (see Findings); any other kind of argument is a NotImplementedError |
| Material.MakeMaterial | matproplib/material.py:309-394 | a material type made by `material` has the given name and elements (an empty composition when none is given), and no converters when none are given |
| Material.MaterialWithoutProperties | matproplib/material.py:342-346 | `material(name)` succeeds and declares exactly the base fields |
| Material.MaterialFromDict | matproplib/material.py:347-364 | a properties dict adds exactly the names it gives other than False or None, after the base fields, and the reference becomes `combine_refs` as written of the given and the group's |
| Material.MaterialDropsReference | matproplib/material.py:335-364 | a reference passed to `material` next to a properties dict is lost: the material type's reference is None, whatever the group holds |
| Material.DefaultValue | matproplib/material.py:380-393 | a field with an undefined default, or a group field that is an UndefinedProperty, starts as an UndefinedProperty; a custom property starts as its given value |
| Material.Material.Make | matproplib/material.py:104-118 | a material holds exactly the name, elements, converters, reference and constituents it was made with, and its fields after `_inject_group` has bound it into them |
| Material.Material.InjectGroup | matproplib/base.py:139-166 | `_inject_group` on a material: every field becomes its injected form, and elements, converters and reference are unchanged |
| Material.InjectField | matproplib/base.py:139-166 | binding the owner keeps whether a field is a dependent property and whether it is undefined; only a dependent property under a public name is rebound, as `Inject` says |
| Material.InjectFields | matproplib/base.py:147-164 | every field is injected in place, with names and order kept |
| Material.InjectKeepsListing | matproplib/base.py:139-166 | binding the owner leaves every listing of the properties unchanged |
| Material.Material.ListProperties | matproplib/material.py:199-221 | a name is listed exactly when the material has a visible dependent physical property of that name selected by `include_undefined` |
| Material.Material.Convert | matproplib/material.py:154-156 | `convert` uses the converter registered under the name, and an unknown name is a KeyError |
| Material.Material.MixtureValidation | matproplib/material.py:127-152 | with no constituents nothing changes; an empty list is an IndexError; otherwise every later constituent is compared in order with the first, and the material's fields become what marking the symmetric differences gives, with elements, converters and reference unchanged |
| Material.Material.MarkDifference | matproplib/material.py:135-150 | the inner loop marks every name of one symmetric difference in turn |
| Material.Profiles | matproplib/material.py:132-134 | each constituent is read as its defined properties and its name |
| Material.SymmetricDifference | matproplib/material.py:134 | a name is in the difference exactly when it is defined on one of the two constituents and not the other |
| Material.Only | matproplib/material.py:134 | a name is kept exactly when it is in the first list and not the second |
| Material.MarkAllKeeps | matproplib/material.py:136-142 | a defined value (an override, a mixture, a property) is never replaced by marking |
| Material.ValidateKeepsDefined | matproplib/material.py:127-152 | mixture validation never replaces a property the material defines |
| Material.MarkAllOthers | matproplib/material.py:135 | a name in no symmetric difference is left as it was |
| Material.ValidateLeavesAgreed | matproplib/material.py:132-135 | a property that every constituent defines, or that none does, is left as it was |
| Material.MarkAllMarks | matproplib/material.py:136-150 | a name in the difference that the material leaves undefined or lacks becomes an attribute error carrying a message |
| Material.ValidateMarks | matproplib/material.py:132-150 | a property defined on the first constituent and not on some later one, or the other way round, that the material leaves undefined becomes an attribute error with a message |
| Material.UndefinedStays | matproplib/material.py:136-150 | marking only writes undefined values: a property undefined or missing before validation is undefined or missing afterwards |
| Material.MarkAllUndefinedStays | matproplib/material.py:136-150 | the same for the marking of one symmetric difference |
| Material.MaterialFraction.constructor | matproplib/material.py:91-95 | a constituent holds its material and its fraction |
| Material.InputVariation | matproplib/material.py:97-101 | a (material, fraction) tuple is read as the dict of its two fields; a dict is left as it is |
| Material.ValidateFraction | matproplib/material.py:91-101 | a constituent validates exactly when both fields are present and the fraction is not negative, and then holds those two values; every failure is a validation error |
| Material.TupleFraction | matproplib/material.py:95-100 | a tuple is accepted exactly when its fraction is not negative, and then holds its material and fraction |
| Material.Instantiate | matproplib/material.py:120-125 | instantiating the abstract Material is a NotImplementedError; any other type gives a new material of that type's name and elements, no constituents, and every field at its default with the material bound into its dependent properties |
| MixtureFactory.ValidateAllFractions | matproplib/material.py:541-543 | the constituents validate exactly when each one does, keeping each validated (material, fraction) in order; otherwise the first invalid constituent's error is raised |
| MixtureFactory.ValidateFractions | matproplib/material.py:541-543 | the validation loop makes one new, distinct `MaterialFraction` per constituent holding its validated material and fraction, or raises the first constituent's error |
| MixtureFactory.ValuesNamed | matproplib/material.py:410 | each constituent gives its own value of the property, or an UndefinedProperty when it lacks it |
| MixtureFactory.PropertiesFromMaterials | matproplib/material.py:402-411 | `_get_properties_from_materials` collects each constituent's value of the property and its fraction, in order |
| MixtureFactory.WithoutUndefined | matproplib/material.py:415-419 | the kept annotation members are exactly those that are neither UndefinedProperty nor UndefinedSuperconductingParameterisation |
| MixtureFactory.IgnoreUndefined | matproplib/material.py:414-423 | `_ignore_undefined` succeeds exactly when some member is not an undefined type, and keeps exactly those members; an annotation of undefined types only is an IndexError |
| MixtureFactory.GetIndexes | matproplib/material.py:426-427 | `_get_indexes` gives exactly the positions holding the value, in increasing order |
| MixtureFactory.GetIndexesAbsent | matproplib/material.py:426-427 | a value that does not occur has no position |
| MixtureFactory.NoneNeverFound | matproplib/material.py:569 | property values are never None, so the list of missing constituents in the error message is always empty |
| MixtureFactory.FirstUndefined | matproplib/material.py:557-562 | the loop stops at the first constituent value that is undefined, and finds none exactly when every value is defined |
| MixtureFactory.UnitOf | matproplib/material.py:566 | the unit is read from a property or a mixture; a superconducting parameterisation has none and raises an AttributeError |
| MixtureFactory.Resolve | matproplib/material.py:550-579 | an override wins; otherwise the first undefined constituent value is taken; otherwise a mixture of the values weighted by the fractions, in the first value's unit, or an attribute-error property when the mixture is invalid; an annotation of undefined types only is an IndexError first |
| MixtureFactory.ResolveProperty | matproplib/material.py:550-579 | the loop for one property computes exactly that resolution from the constituents' values, fractions and names |
| MixtureFactory.AddNames | matproplib/material.py:544-550 | merging field names keeps every earlier name, adds the new ones that are not base material fields, and keeps each name once |
| MixtureFactory.PropertyNamesOf | matproplib/material.py:544-550 | the property names of a mixture are exactly the field names of any constituent other than the base material fields, each once |
| MixtureFactory.ResolveAllOk | matproplib/material.py:550-579 | resolving every property succeeds exactly when each property resolves |
| MixtureFactory.ResolveAllKeys | matproplib/material.py:550-579 | the resolved properties are exactly the given distinct names, in order |
| MixtureFactory.ResolveAllValues | matproplib/material.py:550-579 | every name maps to its own resolved value |
| MixtureFactory.ResolveAllPrefixError | matproplib/material.py:550-579 | a failure among the first properties is the failure of the whole resolution |
| MixtureFactory.MixedElements | matproplib/material.py:592-606 | atomic mixing gives the normalised blend of the compositions; mass mixing is tagged "mass"; any fraction type other than atomic, mass or volume is a NotImplementedError |
| MixtureFactory.SelfMixture | matproplib/material.py:592-593 | a composition that sums to one mixed with itself by atomic fraction keeps its composition |
| MixtureFactory.MixElements | matproplib/material.py:588-606 | the element branch of `mixture` computes exactly the mixed composition |
| MixtureFactory.MixPlan | matproplib/material.py:541-606 | a successful mixture has one checked fraction per constituent and exactly the constituents' property names, each holding its resolved value |
| MixtureFactory.ResolveProperties | matproplib/material.py:550-579 | the property loop resolves every property name of the constituents in order, stopping at the first failure |
| MixtureFactory.Prepare | matproplib/material.py:549-606 | properties, void check and elements are computed as the plan says, and the constituents' fractions become the checked fractions |
| MixtureFactory.Mix | matproplib/material.py:498-614 | `mixture` raises the first invalid constituent's error or the plan's error; with no constituents it raises IndexError; otherwise it returns a new material of that name holding the plan's elements, the converters and reference given, its constituents with their checked fractions, and the resolved properties after the material is bound into them and its own mixture validation |
| MixtureFactory.MixFractions | matproplib/material.py:544-614 | for constituents already validated into fresh records: the plan's error is raised; with no constituents IndexError is raised; otherwise a fresh material of that name is returned holding the plan's elements, the given converters and reference, the constituents with their checked fractions and the properties, with the material bound into them, then validated |
| MixtureFactory.Assemble | matproplib/material.py:608-614 | the returned model holds the name, elements, converters, reference and constituents it is given, and the properties after it is bound into them; its mixture validation fails with IndexError exactly when there are no constituents and otherwise replaces the properties by their validated form |
| MixtureFactory.DecoratorUnits | matproplib/material.py:654-709 | the decorator refuses a missing unit when the class is the base class or has no default unit; an explicit unit is the instance's unit, and a subclass's default unit is the field's default |
| Mixing.Scaled | matproplib/material.py:486 | every fraction is divided by the sum, in order |
| Mixing.TotalScaled | matproplib/material.py:484-488 | dividing every entry by a non-zero number divides their sum by it |
| Mixing.Pairs | matproplib/material.py:436 | `zip` pairs each converted composition with its fraction, the shorter list deciding the length |
| Mixing.Divided | matproplib/material.py:444-445 | every amount is divided by the total, keys kept in order |
| Mixing.AddIntoStep | matproplib/material.py:437-442 | adding one more entry of a composition adds its weighted amount to its key, or appends the key with that amount |
| Mixing.StepSame | matproplib/material.py:438-442 | the entry's key grows by its amount times the fraction |
| Mixing.StepOther | matproplib/material.py:437-442 | every other key keeps its amount |
| Mixing.AddIntoGet | matproplib/material.py:437-442 | adding a composition into the blend adds, to each key, the fraction times that key's amount in the composition |
| Mixing.AddIntoKeys | matproplib/material.py:437-442 | after adding a composition, the blend's keys are the union of its keys and the composition's |
| Mixing.AddIntoDistinct | matproplib/material.py:437-442 | the blend never holds one key twice |
| Mixing.BlendMeaning | matproplib/material.py:435-442 | the blend holds exactly the keys of the constituents, each once, with the fraction-weighted sum of the constituents' amounts |
| Mixing.Blend | matproplib/material.py:435-442 | the blend holds each key once |
| Mixing.ContributionOfDistinct | matproplib/material.py:437-442 | a composition with distinct keys contributes its amount times the fraction |
| Mixing.NormaliseMeaning | matproplib/material.py:443-446 | the normalised blend keeps the blend's keys, divides each amount by the total, and sums to one |
| Mixing.Normalise | matproplib/material.py:443-446 | normalising fails with a float division by zero exactly when a non-empty blend sums to zero; otherwise every key keeps its place |
| Mixing.AddComposition | matproplib/material.py:437-442 | the inner loop adds one converted composition into the running blend with the constituent's fraction |
| Mixing.SumValues | matproplib/material.py:443 | the loop computes the sum of the blend's amounts |
| Mixing.DivideAll | matproplib/material.py:444-445 | the loop divides every amount by the total |
| Mixing.AtomicToInp | matproplib/material.py:430-446 | `_atomic_to_inp_converter` gives the blend of the converted compositions weighted by their fractions, divided by its total; a zero total over a non-empty blend is a ZeroDivisionError |
| Mixing.BlendTwo | matproplib/material.py:436-442 | mixing two constituents adds the second composition into the first |
| Mixing.AddIntoFresh | matproplib/material.py:440-442 | adding a composition with distinct keys into an empty blend scales each amount by the fraction |
| Mixing.AddIntoSame | matproplib/material.py:438-439 | adding a composition into a scaled copy of itself adds the two fractions key by key |
| Mixing.AddIntoSameStep | matproplib/material.py:438-439 | adding one more entry of the second copy moves that key from the first weight to the sum of both weights and leaves the other keys alone |
| Mixing.PartlyNext | matproplib/material.py:438-439 | each further entry of the second copy adds its weighted amount to its key in place |
| Mixing.TotalWeighted | matproplib/material.py:443 | scaling the amounts by a fraction scales their sum by it |
| Mixing.BlendSelf | matproplib/material.py:435-442 | mixing a composition with itself gives it scaled by the sum of the two fractions |
| Mixing.NormaliseWeighted | matproplib/material.py:443-446 | normalising a scaled composition whose amounts sum to one gives the composition back |
| Mixing.SelfBlend | matproplib/material.py:430-446 | mixing a composition that sums to one with itself, at any fractions of non-zero sum, gives it back unchanged |
| Mixing.AtomicExample | matproplib/material.py:430-446 | {H: 0.5, O: 0.5} at 0.2 mixed with {C: 0.2, O: 0.8} at 0.8 gives {H: 0.1, O: 0.74, C: 0.16} |
| Mixing.ExampleFirst | matproplib/material.py:440-442 | the first constituent of that example enters the empty blend as {H: 0.1, O: 0.1} |
| Mixing.ExampleSecond | matproplib/material.py:437-442 | the second constituent then appends carbon at 0.16 and raises oxygen to 0.74 |
| Mixing.FractionsOf | matproplib/material.py:476 | the input fractions are the constituents' fractions, in order |
| Mixing.VoidFractions | matproplib/material.py:473-495 | fractions are left as they are when they sum close to one or when mixing by volume, where the shortfall is void |
| Mixing.VoidFractionsNormalise | matproplib/material.py:478-488 | after the check, atomic and mass fractions sum to one within `isclose` |
| Mixing.VoidFractionsIdempotent | matproplib/material.py:473-495 | checking the checked fractions again changes nothing |
| Mixing.VoidCheck | matproplib/material.py:473-495 | `_void_check` returns the checked fractions and writes the same values into every constituent's fraction; when the sum is zero the division is non-finite and nothing is written |
| MixtureProperty.MaxSizeBounds | matproplib/properties/mixture.py:37-41 | the largest size is one of the results' sizes and bounds every result's size |
| MixtureProperty.FixSizesSpec | matproplib/properties/mixture.py:34-45 | `_fix_sizes` fails exactly when some result is an array and there are more than two sizes; arrays are kept; floats alone are left alone; a float is either kept or becomes a constant array of the largest size |
| MixtureProperty.FixSizesBroadcast | matproplib/properties/mixture.py:40-44 | with exactly the sizes 1 and m, every float becomes a constant array of the larger size |
| MixtureProperty.FixSizesOneSize | matproplib/properties/mixture.py:36-45 | with a single size nothing changes |
| MixtureProperty.ScanSizes | matproplib/properties/mixture.py:36-41 | the first pass finds whether any result is an array, the set of sizes and the largest size |
| MixtureProperty.BroadcastInPlace | matproplib/properties/mixture.py:42-44 | the second pass replaces every float of the list in place by a constant array of the given size |
| MixtureProperty.FixSizes | matproplib/properties/mixture.py:34-45 | `_fix_sizes` on the list fails exactly when the specification fails, leaving the list unchanged, and otherwise leaves the list as the specification says |
| MixtureProperty.WeightedSum | matproplib/properties/mixture.py:65-69 | the einsum fails exactly when the numbers of results and fractions differ or the arrays differ in shape; floats give the fraction-weighted float; arrays give an array of their shape whose entries are the fraction-weighted sums |
| MixtureProperty.FractionalCalcMeaning | matproplib/properties/mixture.py:64-69 | each entry of a mixed value is the fraction-weighted sum of the constituents' entries, a float constituent counting in every entry, and every array constituent has the result's size |
| MixtureProperty.FractionalCalc | matproplib/properties/mixture.py:64-69 | arrays of more than one size other than 1 cannot be mixed; a mixed value has one fraction per constituent |
| MixtureProperty.FractionalSizes | matproplib/properties/mixture.py:64-69 | every array constituent has the size of the mixed value |
| MixtureProperty.FractionalEntries | matproplib/properties/mixture.py:64-69 | each entry of the mixed value is the fraction-weighted sum of the entries at that position |
| MixtureProperty.FixedEntry | matproplib/properties/mixture.py:42-44 | a result `_fix_sizes` replaced was a float and became a constant array of the largest size |
| MixtureProperty.DotConstant | matproplib/properties/mixture.py:65-69 | weighting one constant by the fractions gives the constant times their sum |
| MixtureProperty.MixOfEqualScalars | matproplib/properties/mixture.py:64-69 | constituents that all give the same float, with fractions summing to one, mix to that float |
| MixtureProperty.MixOfOne | matproplib/properties/mixture.py:30 | a single constituent at the default fractions [1] mixes to its own entries |
| MixtureProperty.WarnStep | matproplib/properties/mixture.py:47-57 | the validator logs at most one warning per run, and the flag is set exactly when it was set before or some later constituent's unit differs |
| MixtureProperty.WarnOnce | matproplib/properties/mixture.py:47-57 | however often the validator runs, the warning is logged at most once, and exactly once when units differ |
| MixtureProperty.Evaluate | matproplib/properties/mixture.py:78-80 | the constituents are evaluated in order, each result being that constituent's value in the unit, or the first failure is raised |
| MixtureProperty.Mixture.constructor | matproplib/properties/mixture.py:28-57 | a mixture holds its constituents, its fractions (default [1]) and its unit, and its construction runs the unit check once |
| MixtureProperty.Mixture.WarnOnUnitDifference | matproplib/properties/mixture.py:47-57 | a further run of the check sets the flag and logs only when units differ and no warning was logged yet |
| MixtureProperty.Mixture.ValueAs | matproplib/properties/mixture.py:71-80 | `value_as` fails when a constituent does, and each entry of its result is the fraction-weighted sum of the constituents' entries in the requested unit |
| MixtureProperty.Mixture.Call | matproplib/properties/mixture.py:82-90 | calling a mixture evaluates it in its own unit, with the same weighted-sum meaning |
| NeutronicsConverters.ToFractionConversion | matproplib/converters/neutronics.py:40-46 | atomic fractions pass unchanged, mass fractions go through the mass conversion, and every other basis fails with NotImplementedError naming that basis |
| NeutronicsConverters.MassDensity | matproplib/converters/neutronics.py:128-132 | the mass density is the material's density in g/cm^3, and a missing or `None` density fails with NotImplementedError |
| NeutronicsConverters.Atoms | matproplib/converters/neutronics.py:135-136 | the atoms per cm^3 times the molar mass equal N_A times fraction times density; a zero molar mass is a ZeroDivisionError |
| NeutronicsConverters.NucleideList | matproplib/converters/neutronics.py:218-220 | one `(nucleide, percent type)` pair per entry, in order, with that entry's ZAID and fraction |
| NeutronicsConverters.Selected | matproplib/converters/neutronics.py:93-98 | the entries picked for one side of the split are never more than the composition |
| NeutronicsConverters.SelectedStep | matproplib/converters/neutronics.py:93-98 | one more composition entry extends exactly the side its isotope flag selects |
| NeutronicsConverters.SplitIsotopes | matproplib/converters/neutronics.py:93-98 | the loop fills `isotopes` with the isotope entries and `elements` with the element entries, each with its fraction |
| NeutronicsConverters.SelectedAbsent | matproplib/converters/neutronics.py:93-98 | a key missing from the composition is on neither side of the split |
| NeutronicsConverters.SelectedLast | matproplib/converters/neutronics.py:93-98 | with distinct keys, a composition key is found with its fraction on the side of its isotope flag and not on the other |
| NeutronicsConverters.SplitPartition | matproplib/converters/neutronics.py:93-98 | every composition entry lands in exactly one of the two dicts with its fraction, isotopes in `isotopes`, elements in `elements`; other keys are in neither |
| NeutronicsConverters.OpenmcDensity | matproplib/converters/neutronics.py:101-105 | no `density` attribute gives `None`, a `None` density fails on `value_as`, and a density gives its g/cm^3 value |
| NeutronicsConverters.NoneIfEmpty | matproplib/converters/neutronics.py:113-114 | `d or None`: `None` exactly for an empty dict, the dict itself otherwise |
| NeutronicsConverters.OpenmcConvertWith | matproplib/converters/neutronics.py:78-125 | the conversion's steps give the material of the specification function, failing at the first failing step |
| NeutronicsConverters.OpenmcConvertAsWritten | matproplib/converters/neutronics.py:78-125 | the material is built with the literal precision 8, whatever the configuration says |
| NeutronicsConverters.OpenmcPrecisionIgnored | matproplib/converters/neutronics.py:124 | a configuration asking for 4 decimal places still gets a material written with 8 |
| NeutronicsConverters.OpenmcConvert | matproplib/converters/neutronics.py:78-125 | the conversion builds the material with the configured precision |
| NeutronicsConverters.OpenmcConvertFails | matproplib/converters/neutronics.py:80-105 | a fraction basis other than atomic or mass (so also "volume") fails with NotImplementedError, and a `None` density fails on `value_as` |
| NeutronicsConverters.OpenmcConvertResult | matproplib/converters/neutronics.py:93-125 | a converted material has the configured precision, name and material id, the isotope and element split (`None` when empty), the density in g/cm^3 and the density unit "g/cm3" |
| NeutronicsConverters.GramsPerCubicCentimetre | matproplib/converters/neutronics.py:112 | removing the caret from "g/cm^3" gives "g/cm3" |
| NeutronicsConverters.CubicCentimetre | matproplib/converters/neutronics.py:112 | removing the caret from "cm^3" gives "cm3" |
| NeutronicsConverters.AtomEntries | matproplib/converters/neutronics.py:162-166 | one `(key, atoms)` entry per nucleide, in order, each with the atoms per cm^3 of that nucleide; it fails exactly when some molar mass is zero |
| NeutronicsConverters.IsotopeAtoms | matproplib/converters/neutronics.py:162-166 | the loop fills the isotope dict with the atoms of every nucleide, or stops at the first zero molar mass |
| NeutronicsConverters.AtomEntriesPrefixErr | matproplib/converters/neutronics.py:162-166 | a failure within the first nucleides is a failure of the whole loop |
| NeutronicsConverters.FispactConvert | matproplib/converters/neutronics.py:149-174 | the Fispact card is written from the volume, the mass density and the atoms of every nucleide, and fails with the density's or the loop's error |
| NeutronicsConverters.FispactAtoms | matproplib/converters/neutronics.py:162-166 | with distinct nucleide keys the Fispact card lists every nucleide once, in order, with its atoms |
| NeutronicsConverters.FromListDistinct | matproplib/converters/neutronics.py:162-166 | filling a dict from entries with distinct keys keeps every entry, in order |
| NeutronicsConverters.SetAbsentAppends | matproplib/converters/neutronics.py:166 | setting a key that the dict does not hold appends it at the end |
| NeutronicsConverters.GlobalId.constructor | matproplib/converters/neutronics.py:177 | the MCNP material counter starts at 1 |
| NeutronicsConverters.GlobalId.Take | matproplib/converters/neutronics.py:212-216 | taking a number returns the counter's value and advances the counter by one |
| NeutronicsConverters.Allocate | matproplib/converters/neutronics.py:212-216 | a given material number is used and the counter is left alone; otherwise the counter's value is used and the counter advances |
| NeutronicsConverters.AllocateAll | matproplib/converters/neutronics.py:212-216 | a series of conversions gets one material number each |
| NeutronicsConverters.AllocateConsecutive | matproplib/converters/neutronics.py:212-216 | conversions without material numbers get consecutive numbers from the counter, which ends that many further on |
| NeutronicsConverters.AllocateGiven | matproplib/converters/neutronics.py:212-216 | every conversion that gives a material number gets exactly that number |
| NeutronicsConverters.McnpConvert | matproplib/converters/neutronics.py:194-230 | a failing fraction conversion or density leaves the counter alone and returns its error; otherwise the number is allocated (the counter moves when none was given) and the MCNP card is written with it |
| NeutronicsConverters.McnpConvertShape | matproplib/converters/neutronics.py:194-230 | a material without nucleides fails with IndexError after the counter moved; for atomic or mass fractions the card has a comment line, one line per nucleide and the extra lines |
| NeutronicsConverters.SerpentConvert | matproplib/converters/neutronics.py:244-275 | a failing fraction conversion or density returns its error; otherwise the Serpent card is written with the material's temperature |
| NeutronicsConverters.SerpentConvertShape | matproplib/converters/neutronics.py:244-275 | the Serpent card fails exactly when a temperature with more than one value is sent to the code, and otherwise has a header, one line per nucleide and the extra lines |
| NeutronicsCards.NmmFractionType | matproplib/tools/neutronics.py:71-75 | "atomic", "mass" and "volume" map to "ao", "wo" and "vo", each in both directions, and every other basis has no name |
| NeutronicsCards.PercentPrefix | matproplib/tools/neutronics.py:319-326 | atomic fractions are written after two spaces and mass fractions after " -" (each in both directions); any other type raises ValueError |
| NeutronicsCards.IndentedLines | matproplib/tools/neutronics.py:301-304 | one indented line per nucleide, in order, each with the nucleide's ZAID, suffix, prefix and fraction; it fails exactly when some percent type is neither atomic nor mass |
| NeutronicsCards.GoodPrefix | matproplib/tools/neutronics.py:301-304 | the count of leading nucleides whose percent type is known, stopping at the first unknown one |
| NeutronicsCards.JoinSnoc | matproplib/tools/neutronics.py:331 | joining one more line adds the separator and that line at the end |
| NeutronicsCards.RenderSplit | matproplib/tools/neutronics.py:331 | a rendered card whose lines hold no newline splits back on newlines into its lines followed by the empty text after the final newline |
| NeutronicsCards.Card.constructor | matproplib/tools/neutronics.py:211-214 | a card starts with the given lines |
| NeutronicsCards.Card.GeneralEnd | matproplib/tools/neutronics.py:329-331 | the extra lines (none when `None`) are appended to the card, and the result is the card's lines joined by newlines with a final newline |
| NeutronicsCards.Card.McnpSerpentEnding | matproplib/tools/neutronics.py:294-305 | one indented line per nucleide is appended and the card rendered; on a bad percent type the error is raised with the lines of the nucleides before it already appended |
| NeutronicsCards.Card.AppendToFirst | matproplib/tools/neutronics.py:256 | the text is appended to the first line and the other lines are unchanged |
| NeutronicsCards.AtomLines | matproplib/tools/neutronics.py:215-218 | one line per nucleide, in order, with its name and the atoms in the volume |
| NeutronicsCards.ToFispactMaterial | matproplib/tools/neutronics.py:191-219 | the card is the DENSITY line, the FUEL line, one line per nucleide and the extra lines, rendered |
| NeutronicsCards.FispactShape | matproplib/tools/neutronics.py:211-219 | the Fispact card has 2 + nucleides + extra lines: DENSITY with the density, FUEL with the count of nucleides, each nucleide's line starting with its name and two spaces, then the extra lines |
| NeutronicsCards.FispactLineAt | matproplib/tools/neutronics.py:215-218 | the line after the header for the i-th nucleide is that nucleide's atom line |
| NeutronicsCards.FispactEnd | matproplib/tools/neutronics.py:219 | the Fispact card ends with the extra lines |
| NeutronicsCards.AtomLineStart | matproplib/tools/neutronics.py:216 | a nucleide's Fispact line starts with its name and two spaces |
| NeutronicsCards.SerpentHeader | matproplib/tools/neutronics.py:250-256 | the first line has the name and the negated absolute density; the temperature is appended when it is sent to the code and given; it fails exactly on an array temperature with other than one value |
| NeutronicsCards.ToSerpentMaterial | matproplib/tools/neutronics.py:222-260 | the Serpent card is rendered from its header, nucleide lines and extra lines, or fails with the header's or a nucleide's error |
| NeutronicsCards.SerpentShape | matproplib/tools/neutronics.py:250-260 | the Serpent card fails exactly on a bad temperature or percent type; otherwise it is the header, one indented line per nucleide and the extra lines |
| NeutronicsCards.ToMcnpMaterial | matproplib/tools/neutronics.py:263-291 | the MCNP card is rendered from its comment, material line, nucleide lines and extra lines, or fails with IndexError or a percent type's ValueError |
| NeutronicsCards.McnpFails | matproplib/tools/neutronics.py:283-291 | the MCNP card fails exactly without nucleides (IndexError) or with a bad percent type |
| NeutronicsCards.McnpShape | matproplib/tools/neutronics.py:283-291 | the MCNP card has 1 + nucleides + extra lines; the material line starts with "M" and the number padded to five columns; the remaining nucleides' lines are indented; the extra lines come last |
| NeutronicsCards.OpenmcArguments | matproplib/tools/neutronics.py:113-146 | without a density both unit-cell values are required; an array temperature sent to the code must have one value; a temperature not sent is dropped; the fraction bases are translated; the caret is removed from the density unit; the unit-cell volume is converted from m^3 to cm^3 |
| MatmlConverter.LeadingSpaces | matproplib/converters/matml.py:43 | the count of spaces a text starts with: those are spaces and the next character is not |
| MatmlConverter.UnderscoreSpaces | matproplib/converters/matml.py:43 | the substitution never lengthens the text and keeps a first character that is not a space |
| MatmlConverter.UnderscoreSpacesSeparates | matproplib/converters/matml.py:43 | after the substitution no space stands right before a letter |
| MatmlConverter.LettersConcat | matproplib/converters/matml.py:43 | the letters of a concatenation are the letters of its parts |
| MatmlConverter.LettersOfSpaces | matproplib/converters/matml.py:43 | a run of spaces has no letters |
| MatmlConverter.UnderscoreSpacesKeepsLetters | matproplib/converters/matml.py:43 | the substitution only changes spaces: every other character is kept, in order |
| MatmlConverter.UnderscoreSpacesWord | matproplib/converters/matml.py:43 | a word without spaces at the front is kept as it is |
| MatmlConverter.Rename | matproplib/converters/matml.py:63-65 | a renamed name has no apostrophe, hyphen or upper-case ASCII letter and is no longer than the name |
| MatmlConverter.RenameSpecificHeat | matproplib/converters/matml.py:53-65 | "Specific Heat" is renamed to "specific_heat", which translates to "specific_heat_capacity" |
| MatmlConverter.CleanSpecificHeat | matproplib/converters/matml.py:65 | deleting apostrophes and replacing hyphens leaves "specific_heat" unchanged |
| MatmlConverter.TranslateSpecificHeat | matproplib/converters/matml.py:54 | "specific_heat" translates to "specific_heat_capacity" |
| MatmlConverter.LowerSpecificHeat | matproplib/converters/matml.py:65 | "Specific_Heat" lowercases to "specific_heat" |
| MatmlConverter.UnderscoreHeat | matproplib/converters/matml.py:43 | the space before "Heat" becomes an underscore |
| MatmlConverter.UnderscoreSpecificHeat | matproplib/converters/matml.py:43 | "Specific Heat" becomes "Specific_Heat" |
| MatmlConverter.Translate | matproplib/converters/matml.py:53-60 | a listed name gets its listed translation, and every other name is kept |
| MatmlConverter.TranslateKnown | matproplib/converters/matml.py:53-60 | each of the six listed names translates to its own entry |
| MatmlConverter.SingleMultiValue | matproplib/converters/matml.py:68-73 | one item is returned alone; several items starting with a number become an array; other lists are kept; the items are never changed; an empty list is an IndexError |
| MatmlConverter.SeqMin | matproplib/converters/matml.py:86-87 | the least value is one of the values and no value is below it |
| MatmlConverter.SeqMax | matproplib/converters/matml.py:86-87 | the greatest value is one of the values and no value is above it |
| MatmlConverter.OpCondConfigCreator | matproplib/converters/matml.py:76-87 | the bounds are the least and greatest values of the independent variable; the unit is left out exactly for temperature in kelvin; the optional condition fields fail on `model_fields`; no values is a ValueError |
| MatmlConverter.OpCondConfigSettles | matproplib/converters/matml.py:76-87 | once the configuration is settled with default units, each configured condition has the unit it was created with |
| MatmlConverter.ScanOk | matproplib/converters/matml.py:103-114 | the scan over a property's parameters fails exactly when a qualified parameter has no value |
| MatmlConverter.ScanDependent | matproplib/converters/matml.py:104-107 | the scan finds a dependent variable exactly when some parameter has a `dependent` entry, and it is the last such parameter |
| MatmlConverter.ScanIndependent | matproplib/converters/matml.py:109-114 | the scan finds an independent variable exactly when some parameter has an `independent` entry |
| MatmlConverter.ScanPrefixErr | matproplib/converters/matml.py:103-114 | a failure among the first parameters is the failure of the whole scan |
| MatmlConverter.OutcomesPrefixErr | matproplib/converters/matml.py:101-132 | a failure in an earlier property group is the failure of the whole conversion |
| MatmlConverter.ConvertToProperties | matproplib/converters/matml.py:90-133 | the loops compute the specification function: the properties keyed by translated name, or the first group's failure |
| MatmlConverter.GroupResult | matproplib/converters/matml.py:102-132 | a failing scan is the group's failure; a group without a dependent parameter gives no property; a property is given only without an independent parameter, and never as an array |
| MatmlConverter.ConvertSpec | matproplib/converters/matml.py:90-133 | the conversion fails exactly when some group fails, and otherwise holds each translated name once |
| MatmlConverter.ScalarProperty | matproplib/converters/matml.py:104-132 | a group whose only parameter is a single dependent value becomes that value with its unit, under the translated name, whether it was marked Dependent or Independent |
| MatmlConverter.NoDependentNoProperty | matproplib/converters/matml.py:116 | a group without a dependent parameter gives no property, and fails only when a qualified parameter has no value |
| MatmlConverter.ArrayNeedsIndependent | matproplib/converters/matml.py:128-129 | several numeric values without an independent parameter fail with "No independent property to fit against" |
| MatmlConverter.IndependentAlwaysFails | matproplib/converters/matml.py:117-121 | as written, a group with both a dependent and an independent parameter always fails with KeyError("indep"), because the entry is read after it was popped |
| MatmlConverter.OutcomesFromGroups | matproplib/converters/matml.py:101-132 | every converted property is the outcome of one of the groups |
| MatmlConverter.ConvertMeaning | matproplib/converters/matml.py:131-132 | each converted property, under its name, is the outcome of one of the groups |
| MatmlConverter.LastWithIn | matproplib/converters/matml.py:132 | the last value recorded under a key is one of the entries |
| MatmlConverter.ConvertImported | matproplib/converters/matml.py:116-129 | on data of the importer's form, the conversion fails only for an array-valued property without an independent variable |
| MatmlConverter.PaddedId | matproplib/converters/matml.py:157-158 | an id is the prefix followed by at least two characters |
| MatmlConverter.LeadingDigit | matproplib/converters/matml.py:157-158 | a positive number's text does not start with "0" |
| MatmlConverter.PaddedIdInjective | matproplib/converters/matml.py:154-158 | different property numbers get different ids |
| MatmlConverter.ExportRecords | matproplib/converters/matml.py:156-163 | the records of the property numbered i + 1 carry the ids `pr` and `pa` followed by that number padded to two digits |
| MatmlConverter.PropertyValues | matproplib/converters/matml.py:154-164 | one property value per property, in order, the i-th with the id of property i + 1 |
| MatmlConverter.PropertyDetailsOf | matproplib/converters/matml.py:154-165 | one property detail per property |
| MatmlConverter.ParameterDetailsOf | matproplib/converters/matml.py:154-166 | one parameter detail per property, in order, the i-th with the parameter id i + 1 |
| MatmlConverter.MatmlConvert | matproplib/converters/matml.py:148-183 | `MatML.convert` with the corrected formula (whole numbers in the ratio of the fractions): the document built as `MatmlConvertWith` builds it; the material takes the next number of the id counter |
| MatmlConverter.MatmlConvertWith | matproplib/converters/matml.py:148-183 | the document holds one property value, property detail and parameter detail per property, numbered from 1 in property order, and the given characterisation; the material takes the next number of the id counter |
| MatmlConverter.MatmlConvertAsWritten | matproplib/converters/matml.py:148-183 | `MatML.convert` as written: the document holds the formula `to_characterisation` writes with the gcd of the denominators |
| MatmlConverter.ConvertedFormaldehyde | matproplib/converters/matml.py:175 | formaldehyde is exported as "CHO" as written and as "CH2O" corrected |
| MatmlConverter.FormulaNonEmpty | matproplib/converters/matml.py:175 | a characterisation with a named element has a non-empty formula |
| MatmlConverter.ParamEntry | matproplib/converters/matml.py:215-230 | a Dependent qualifier gives `dependent` True and an Independent one `dependent` False, each with the data `to_data` reads in the data's own format; other qualifiers give an empty entry; `independent` is never set |
| MatmlConverter.ImportSpec | matproplib/converters/matml.py:199-206 | more than one material is a NotImplementedError and none a StopIteration |
| MatmlConverter.ImportParameters | matproplib/converters/matml.py:214-230 | the loop over a property value's parameters records each non-skipped parameter under its renamed name, or stops at the first failure |
| MatmlConverter.ImportPropertyValues | matproplib/converters/matml.py:213-230 | the loop over a property's values adds the parameters of each value in order |
| MatmlConverter.ImportPropertyGroup | matproplib/converters/matml.py:208-230 | a skipped property is left out; otherwise its parameters are added under its renamed name, starting from what that name already holds |
| MatmlConverter.ImportFrom | matproplib/converters/matml.py:199-230 | the import computes the specification function from the extracted data |
| MatmlConverter.SetImportedParams | matproplib/converters/matml.py:218 | recording a parameter of the importer's form keeps the parameters in that form |
| MatmlConverter.AddParamsImported | matproplib/converters/matml.py:214-230 | adding a value's parameters keeps the parameters in the importer's form |
| MatmlConverter.AddGroupImported | matproplib/converters/matml.py:213-230 | adding a property's values keeps its parameters in the importer's form |
| MatmlConverter.ImportGroupsImported | matproplib/converters/matml.py:208-230 | the importer never sets `independent` and never records a qualified parameter without data |
| MatmlConverter.ImportThenConvert | matproplib/converters/matml.py:199-236 | an imported material's properties convert unless one of them is an array, because the independent-variable branch is never reached |
| MatmlConverter.ExportedNotImported | matproplib/converters/matml.py:148-206 | as written, a document exported for a material with elements, with either formula, holds no importable material, so importing it fails with StopIteration |
| MatmlUtilities.Pieces | matproplib/tools/matml/utilities.py:99-101 | there is always at least one piece; the whole value is one piece when the delimiter is empty; with a quote, no piece starts with a quote character |
| MatmlUtilities.PiecesJoin | matproplib/tools/matml/utilities.py:99 | without a quote the pieces join back to the value with the delimiter |
| MatmlUtilities.ReadPieces | matproplib/tools/matml/utilities.py:103-110 | the string format keeps every piece as text; the other formats succeed exactly when every piece parses as a float (and, for the exponential format, its power of ten does not overflow), giving 10^v for the exponential format and v otherwise, one item per piece |
| MatmlUtilities.ToData | matproplib/tools/matml/utilities.py:31-38 | a parameter value that reads gives at least one item |
| MatmlUtilities.ToDataType | matproplib/tools/matml/utilities.py:96-110 | a value that reads gives at least one item; with no format given, it reads exactly when every piece parses as a float, and gives those floats |
| MatmlUtilities.ToDataFormat | matproplib/tools/matml/utilities.py:31-38 | a parameter value is read in its data's own format: its format attribute plays no part, and data with no format reads as floats |
| MatmlUtilities.StringAttributeReadsFloats | matproplib/tools/matml/utilities.py:31-38 | a parameter value whose attribute says string but whose data has no format fails on "abc"; with the data's format set to string it reads "abc" as text |
| MatmlUtilities.ToDataTypeText | matproplib/tools/matml/utilities.py:97-110 | text read in the string format without a quote gives one item per piece, and the items join back to the text |
| MatmlUtilities.UnitTerms | matproplib/tools/matml/utilities.py:87-92 | one `name^power` term per MatML unit, in order |
| MatmlUtilities.ProcessUnits | matproplib/tools/matml/utilities.py:84-94 | the loop builds the unit terms joined with "." |
| MatmlUtilities.UnitTermStart | matproplib/tools/matml/utilities.py:88-92 | "C" with a positive or no power is read as "degC", and with a zero or negative power as "K"; any other name is kept; a missing power is written "^1" |
| MatmlUtilities.ToUnit | matproplib/tools/matml/utilities.py:41-43 | a unitless parameter is "dimensionless"; a parameter with units gets its processed units; one with neither fails on the missing units |
| MatmlUtilities.ToMlUnits | matproplib/tools/matml/utilities.py:113-121 | one MatML unit per pint unit, in order, with its symbol and power, in the SI system |
| MatmlUtilities.MakeDetails | matproplib/tools/matml/utilities.py:124-134 | the details keep the name and id; exactly one of units and unitless is set, unitless exactly for a dimensionless unit |
| MatmlUtilities.DetailsUnitRoundTrip | matproplib/tools/matml/utilities.py:124-134 | a unit written into details reads back through `to_unit`: "dimensionless" when it was dimensionless, and otherwise one `symbol^power` term per unit, in order |
| MatmlUtilities.ValueItems | matproplib/tools/matml/utilities.py:146-147 | a value that is not a list becomes a one-item list |
| MatmlUtilities.Shown | matproplib/tools/matml/utilities.py:152 | one text per value, in order |
| MatmlUtilities.Repeat | matproplib/tools/matml/utilities.py:153 | one "Dependent" qualifier per value |
| MatmlUtilities.ParameterData | matproplib/tools/matml/utilities.py:137-165 | one parameter value holding the joined values with one "Dependent" qualifier each; the property described as unitless with the property id; the parameter described with the property's unit |
| MatmlUtilities.ParameterDataRoundTrip | matproplib/tools/matml/utilities.py:137-165 | values written by `parameter_data` read back through `to_data_type` as the same floats, when their texts avoid the delimiter and parse back |
| MatmlUtilities.GcdPositive | matproplib/tools/matml/utilities.py:174 | the gcd of two numbers, one of them positive, is positive |
| MatmlUtilities.GcdDivides | matproplib/tools/matml/utilities.py:174 | the gcd divides both numbers |
| MatmlUtilities.LcmMultiple | matproplib/tools/matml/utilities.py:174 | the lcm of two positive numbers is a multiple of each |
| MatmlUtilities.LcmAllMultiple | matproplib/tools/matml/utilities.py:174 | the lcm of all denominators is a multiple of each denominator |
| MatmlUtilities.Denominators | matproplib/tools/matml/utilities.py:174 | the denominators of the fractions, in order |
| MatmlUtilities.SubscriptsAsWritten | matproplib/tools/matml/utilities.py:174-183 | one subscript per element |
| MatmlUtilities.SubscriptCounts | matproplib/tools/matml/utilities.py:174-183 | one subscript per element |
| MatmlUtilities.ScaledRatio | matproplib/tools/matml/utilities.py:179 | a fraction scaled by a multiple of its denominator keeps its ratio |
| MatmlUtilities.ToCharacterisationRatios | matproplib/tools/matml/utilities.py:168-191 | every subscript is its fraction times one common factor, the lcm of the denominators, so the subscripts keep the ratio of the fractions |
| MatmlUtilities.ToCharacterisation | matproplib/tools/matml/utilities.py:168-191 | corrected: one element per fraction, in order, with its symbol, and the formula written from them |
| MatmlUtilities.ToCharacterisationAsWritten | matproplib/tools/matml/utilities.py:168-191 | as written: one element per fraction, in order, with its symbol, and the formula written from them |
| MatmlUtilities.ToCharacterisationElements | matproplib/tools/matml/utilities.py:175-183 | the written elements are the symbols in order, and each subscript reads back as its count |
| MatmlUtilities.FormulaSnoc | matproplib/tools/matml/utilities.py:184-190 | one more element adds its symbol and its subscript, unless the subscript is "1" |
| MatmlUtilities.WaterDenominators | matproplib/tools/matml/utilities.py:174 | for two thirds hydrogen and one third oxygen, the gcd and the lcm of the denominators are both 3 |
| MatmlUtilities.WaterFormula | matproplib/tools/matml/utilities.py:168-191 | two thirds hydrogen and one third oxygen is written "H2O", as written and corrected |
| MatmlUtilities.WaterSubscripts | matproplib/tools/matml/utilities.py:175-183 | the corrected water subscripts are H 2 and O 1 |
| MatmlUtilities.WaterSubscriptsAsWritten | matproplib/tools/matml/utilities.py:175-183 | the subscripts as written for water are H 2 and O 1 |
| MatmlUtilities.FormulaWater | matproplib/tools/matml/utilities.py:184-190 | H 2, O 1 is written "H2O" |
| MatmlUtilities.FormaldehydeDenominators | matproplib/tools/matml/utilities.py:174 | for a quarter carbon, half hydrogen and a quarter oxygen, the gcd of the denominators is 2 but the lcm is 4 |
| MatmlUtilities.FormaldehydeAsWritten | matproplib/tools/matml/utilities.py:174-190 | as written, a quarter carbon, half hydrogen and a quarter oxygen is written "CHO" |
| MatmlUtilities.FormaldehydeSubscriptsAsWritten | matproplib/tools/matml/utilities.py:174-183 | as written, the formaldehyde subscripts are all 1 |
| MatmlUtilities.FormulaOnes | matproplib/tools/matml/utilities.py:184-190 | C 1, H 1, O 1 is written "CHO" |
| MatmlUtilities.FormaldehydeFormula | matproplib/tools/matml/utilities.py:168-191 | with the lcm, a quarter carbon, half hydrogen and a quarter oxygen is written "CH2O" |
| MatmlUtilities.FormaldehydeSubscripts | matproplib/tools/matml/utilities.py:175-183 | with the lcm, the formaldehyde subscripts are C 1, H 2, O 1 |
| MatmlUtilities.FormulaFormaldehyde | matproplib/tools/matml/utilities.py:184-190 | C 1, H 2, O 1 is written "CH2O" |
| MatmlUtilities.Grouped | matproplib/tools/matml/utilities.py:63-68 | the grouped property data has one group per property id |
| MatmlUtilities.GroupProperties | matproplib/tools/matml/utilities.py:63-68 | the grouping loop computes the grouping specification |
| MatmlUtilities.GroupedMeaning | matproplib/tools/matml/utilities.py:63-68 | each id's group is exactly its property data in document order, and ids that do not occur have no group |
| MatmlUtilities.DetailsById | matproplib/tools/matml/utilities.py:76-78 | one `(id, details)` entry per details record, in order |
| MatmlUtilities.ExtractData | matproplib/tools/matml/utilities.py:46-81 | the materials are those without a formula, keyed by id, each with its name and grouped property data; the details are keyed by id, and empty without metadata |
| MatmlUtilities.MaterialEntriesMeaning | matproplib/tools/matml/utilities.py:49-74 | a material is extracted under an id exactly when some material with that id has no formula |
| MatmlUtilities.KeptBefore | matproplib/tools/matml/utilities.py:49-74 | when the last material is not kept under an id, the kept one lies before it |
| MatmlDocument.MaterialIds.constructor | matproplib/tools/matml/matml.py:1071 | the material counter starts at 1 |
| MatmlDocument.MaterialIds.MaterialId | matproplib/tools/matml/matml.py:1074-1078 | the id is the counter's value as decimal text, and the counter advances by one |
| MatmlDocument.MaterialIds.NewMaterial | matproplib/tools/matml/matml.py:1081-1121 | a material with an id keeps it and leaves the counter alone; one without gets the counter's next id |
| MatmlDocument.IdsFrom | matproplib/tools/matml/matml.py:1074-1078 | successive calls hand out the decimal texts of start, start + 1, ... |
| MatmlDocument.IdsDistinct | matproplib/tools/matml/matml.py:1074-1078 | successive ids are pairwise different and read back as their numbers |
| MatmlDocument.FirstIds | matproplib/tools/matml/matml.py:1071-1078 | a fresh counter gives "1", "2", "3" |
| MatmlDocument.SplitQualifier | matproplib/tools/matml/matml.py:766-773 | a single qualifier is split on the delimiter into pieces that join back to it; other lists are kept, whatever the delimiter |
| MatmlDocument.SplitQualifierIdempotent | matproplib/tools/matml/matml.py:766-773 | validating a second time changes nothing more |
| MatmlDocument.ValidatePropertyData | matproplib/tools/matml/matml.py:766-773 | validation fails, on the empty separator, exactly when the delimiter is empty and the property data or one of its parameter values holds a single qualifier; otherwise the single qualifiers of the property data and of each parameter value are split |
| MatmlDocument.QualifiersSplitMeaning | matproplib/tools/matml/matml.py:766-773 | after validation each single qualifier is replaced by pieces that join back to it, other qualifier lists are unchanged, and parameters and data are kept |
| MatmlDocument.FindXmlNodeMeaning | matproplib/tools/matml/matml.py:1168-1175 | every node found has the tag, compared without case, and a node is found exactly when the tree holds one |
| MatmlDocument.FindXmlNode | matproplib/tools/matml/matml.py:1168-1175 | every node found has the tag, compared without case |
| MatmlDocument.FindInChildrenMeaning | matproplib/tools/matml/matml.py:1173-1175 | the nodes found among children all have the tag, and some are found exactly when some child's tree holds one |
| MatmlDocument.FromFileMeaning | matproplib/tools/matml/matml.py:1157-1186 | several document nodes raise NotImplementedError; none raises IndexError; otherwise the parser's result is passed on, its value errors reported as MatMLParserError |
| MatmlDocument.FromFile | matproplib/tools/matml/matml.py:1157-1186 | several document nodes raise NotImplementedError and none raises IndexError; a document is read only from the single document node, by the parser |

## Left out

- Pydantic and the dynamic class machinery (`create_model`, validate-on-assign, `Material.__getattr__` forwarding, generics) are not modelled. Materials and property groups are records of named fields with a defined/undefined/mixed value datatype.
- pint is not modelled. Unit conversion is a partial function parameter, and units are kept as the text they are written with, so two spellings of one unit compare as different.
- The nucleides module is not part of this model. Its atomic-to-mass conversion is a function parameter, and an `ElementFraction` is reduced to what the converters read: ZAID, isotope flag, molar mass and fraction.
- properties/dependent.py is not part of this model. Evaluating a dependent property is a function parameter, and `UndefinedProperty` and `AttributeErrorProperty` are variants of one undefined-value datatype, the latter assumed to be a kind of undefined property.
- Volume-basis mixing (`_atomic_to_volume_converter` and the volume branch of `mixture`) is an opaque function parameter: it relies on density conversions outside this model.
- Printf-style number formatting in the cards (`.{dp}e`, `.{dp}E`, `str` of a temperature) is a function parameter, so digits and rounding are not modelled.
- `Fraction.limit_denominator` is not modelled: element fractions enter the formula code as exact fractions (a numerator and a positive denominator). Python's `Fraction` is always in lowest terms, but the model's `Frac` does not require it; the as-written gcd of the denominators matches the library only for fractions given in lowest terms.
- Float rounding, NaN and infinity are not modelled; a division that would give NaN or infinity is reported as an error instead.
- File and XML I/O is not modelled. This covers reading and writing files, `MatML.get_model`, `MatMLXML.export`, and lxml and xsdata. `from_file` is modelled on a parsed element tree, with the schema parser as a parameter.
- The neutronics material maker is not modelled: `import_nmm`, `patch_nmm_openmc` and the `nmm.Material(...)` call. The OpenMC conversion ends with the record of the arguments that call would receive.
- `to_openmc_material_mixture` is not modelled, because it only forwards its arguments to the neutronics material maker.
- The MatML schema classes are reduced to the fields the converter reads and writes (for a parameter value, both its format attribute and the optional format of its data). The enumerations are reduced to the data formats.
- Logging is not modelled. The unit-mismatch warning of a `Mixture` is the flag that records whether it was logged.
- The module-level counters `global_id` (MCNP material numbers) and `mat_id` (MatML material ids) are objects passed to the operations that use them, not process-wide globals.
- The library materials, the `physical_materials` package, the documentation plugin and the example scripts are not part of this model.
- Mixing.VoidCheck: fractions summing to zero give NaN fractions (or a validation error on assignment) in the library; here that case is an error and no fraction is changed.
- Mixing.VoidCheck: the `MaterialFraction` objects must be distinct, because aliasing between constituents is not modelled.
- MixtureFactory.PropertyNamesOf: the library iterates the set of constituent property names in an unspecified order; here the names come in order of first appearance.
- MatmlConverter.OpCondConfigCreator: the condition's default unit is compared with the given unit as text, not as pint units.
- ConvertersBase.Converters.SetAttr: for the name "root" the registry is kept. The library has already replaced `root` with the non-dict value by the time the item assignment fails, but the registry's type cannot hold a bare converter as its root.
- Values.AllClose: two arrays of different shapes, each with more than one entry, never broadcast here. numpy broadcasts them when every axis, aligned from the right, is equal or 1, as for (2, 1) against (1, 3) or (3,) against (2, 3).
- Strings.Lower: folds ASCII letters only. Python's `str.lower()` folds every cased Unicode letter, so tag and name comparisons (`MatmlConverter.Rename`, `MatmlDocument.TagIs`) differ for non-ASCII letters.
- Material.Material.MixtureValidation: the error message names the constituent by its type name. The library formats the constituent itself (pydantic's text of all its fields), which the model does not reproduce.
- MatmlConverter.ImportFrom: the end of `import_from` (converters/matml.py:233-238) is not modelled. That is the call of `convert_to_properties` on the grouped parameters, and of `props(...)` and `material(...)` on its result. Turning a converted property dictionary into a dependent property, with its interpolating `From1DData` value, needs properties/dependent.py, which is not part of this model. `MatmlConverter.ConvertToProperties` and `Material.MakeMaterial` model the two sides of that call separately.
- Material.InjectField: a dependent property object is rebound in place in the library, so an object shared by two materials ends up bound to the last one built. The model rebinds a copy in each material, because aliasing is not modelled.
- MixtureFactory.ValidateFractions: the validated constituents are returned as new records. The library validates the caller's own objects, and aliasing between them is not modelled.

## Findings

| source | as written | input that shows it | evidently intended | confidence | as-written member | corrected member |
|---|---|---|---|---|---|---|
| matproplib/converters/neutronics.py:124 | `OpenMCNeutronicConfig.convert` passes `decimal_places=8` to `to_openmc_material`, ignoring the configuration's own `decimal_places` field | a configuration with `decimal_places=4`: the material is still made with 8 decimal places | pass `self.decimal_places`, the precision the field documents | not executed | NeutronicsConverters.OpenmcConvertAsWritten, NeutronicsConverters.OpenmcPrecisionIgnored | NeutronicsConverters.OpenmcConvert, NeutronicsConverters.OpenmcConvertResult |
| matproplib/conditions.py:254-268 | `modify_conditions` rebuilds a re-expressed condition from the default `Quantity(...).to(new_unit)`, which is never validated into an ndarray, so the length check counts it as one value and calls `np.full(length, magnitude)` on it | temperature [300, 400] K configured in "degC", no other condition set: the length is taken to be 1 and `np.full(1, ...)` raises ValueError | re-expressed values are arrays to the length check, so the two converted temperatures are kept | not executed | Conditions.ModifiedAsWrittenSpec, Conditions.SameLengthAsWritten, Conditions.LoneQuantityRefused, Conditions.ModifiedTwoTemperatures | Conditions.ModifyConditions, Conditions.ModifiedSpec, Conditions.ModifyMeaning |
| matproplib/material.py:335-340 | `combine_refs` returns `References.combine(...)`, which returns None, when both a reference and a group reference are given, and None when the group has no reference | `material("m", properties={...}, reference=r)`: the material's reference is None | keep the caller's references, with the group's written over them by id | not executed | Material.CombineRefsAsWritten, Material.PropertyFields, Material.MakeMaterial, Material.MaterialFromDict, Material.MaterialDropsReference, Material.CallerReferenceKept | Material.CombineRefs, Material.CallerReferenceKept |
| matproplib/tools/matml/utilities.py:174 | `to_characterisation` scales the fractions by the gcd of their denominators | {C: 1/4, H: 1/2, O: 1/4}: the gcd is 2, the subscripts are 1, 1, 1, and the formula is "CHO" | scale by the lcm of the denominators (4), giving subscripts 1, 2, 1 and "CH2O", whole numbers in the ratio of the fractions | not executed | MatmlUtilities.ToCharacterisationAsWritten, MatmlUtilities.FormaldehydeAsWritten, MatmlConverter.MatmlConvertAsWritten, MatmlConverter.ConvertedFormaldehyde | MatmlUtilities.ToCharacterisation, MatmlUtilities.FormaldehydeFormula, MatmlUtilities.ToCharacterisationRatios, MatmlConverter.MatmlConvert |
