/**
 * Property definitions and descriptions as the property tool shows them:
 * the lookup of a definition by object type and property identifier, with
 * the fallback to the definitions valid for every object type, and the one
 * line `printDescription` writes per description.
 */
module Catalog {
  import opened Base

  /** `PropertyKey.GLOBAL_OBJTYPE`: the object type of definitions that hold for every object type. */
  const GlobalObjType: int := -1

  datatype PropertyKey = PropertyKey(objType: int, pid: int)

  /** The parts of a loaded property definition the tool reads: its name and its data type. */
  datatype PropertyDef = PropertyDef(name: string, pdt: int)

  /** A property description as the device reports it; a PDT of -1 means the device gave none. */
  datatype Description = Description(
    propIndex: int,
    objectType: int,
    objectIndex: int,
    pid: int,
    pdt: int,
    currentElements: int,
    maxElements: int,
    readLevel: int,
    writeLevel: int,
    writeEnabled: bool)

  /** The tool's `definitions` field: `None` while no definitions were loaded. */
  type Definitions = Option<map<PropertyKey, PropertyDef>>

  /** `getPropertyDef`: the definition under exactly this key, if definitions were loaded. */
  function GetPropertyDef(defs: Definitions, objType: int, pid: int): (r: Option<PropertyDef>)
    ensures r.Some? <==> defs.Some? && PropertyKey(objType, pid) in defs.value
    ensures r.Some? ==> r.value == defs.value[PropertyKey(objType, pid)]
  {
    if defs.None? then None
    else if PropertyKey(objType, pid) in defs.value then Some(defs.value[PropertyKey(objType, pid)])
    else None
  }

  /** The definition `printDescription` uses: the exact one, else the global one for the PID. */
  function ShownDefinition(defs: Definitions, objType: int, pid: int): Option<PropertyDef>
  {
    var p := GetPropertyDef(defs, objType, pid);
    if p.None? then GetPropertyDef(defs, GlobalObjType, pid) else p
  }

  /**
   * The lookup tries the exact key first and the global object type only
   * on a miss; nothing is found while no definitions were loaded.
   */
  lemma ShownDefinitionRule(defs: Definitions, objType: int, pid: int)
    ensures defs.None? ==> ShownDefinition(defs, objType, pid).None?
    ensures defs.Some? && PropertyKey(objType, pid) in defs.value ==>
      ShownDefinition(defs, objType, pid) == Some(defs.value[PropertyKey(objType, pid)])
    ensures defs.Some? && PropertyKey(objType, pid) !in defs.value ==>
      ShownDefinition(defs, objType, pid) == GetPropertyDef(defs, GlobalObjType, pid)
    ensures ShownDefinition(defs, objType, pid).Some? <==>
      defs.Some? && (PropertyKey(objType, pid) in defs.value || PropertyKey(GlobalObjType, pid) in defs.value)
  {
  }

  /** The PDT column: the device's PDT, else the definition's, else a dash. */
  function PdtText(d: Description, def: Option<PropertyDef>): string
  {
    if d.pdt != -1 then IntToString(d.pdt)
    else if def.Some? then IntToString(def.value.pdt)
    else "-"
  }

  /** The dash appears exactly when neither the device nor a definition gives a PDT. */
  lemma PdtTextDash(d: Description, def: Option<PropertyDef>)
    ensures PdtText(d, def) == "-" <==> d.pdt == -1 && def.None?
    ensures d.pdt != -1 ==> PdtText(d, def) == IntToString(d.pdt)
  {
    if d.pdt != -1 {
      IntToStringNotDash(d.pdt);
    } else if def.Some? {
      IntToStringNotDash(def.value.pdt);
    }
  }

  /** The name in parentheses, when a definition was found. */
  function NamePart(def: Option<PropertyDef>): string
  {
    if def.Some? then " (" + def.value.name + ")" else ""
  }

  /** The columns before the name. */
  function DescriptionHead(d: Description): string
  {
    IntToString(d.propIndex) + " OT " + IntToString(d.objectType) + ", OI " + IntToString(d.objectIndex)
    + ", PID " + IntToString(d.pid)
  }

  /** The columns after the PDT. */
  function DescriptionTail(d: Description): string
  {
    ", curr. elems " + IntToString(d.currentElements) + ", max. " + IntToString(d.maxElements)
    + ", r/w access " + IntToString(d.readLevel) + "/" + IntToString(d.writeLevel)
    + (if d.writeEnabled then ", w.enabled" else ", r.only")
  }

  /** The line `printDescription` logs for a description. */
  function DescriptionText(d: Description, defs: Definitions): string
  {
    var def := ShownDefinition(defs, d.objectType, d.pid);
    DescriptionHead(d) + NamePart(def) + ", PDT " + PdtText(d, def) + DescriptionTail(d)
  }

  /**
   * Loaded definitions change the line only when one matches: without a
   * match the line is the one shown with no definitions at all.
   */
  lemma DescriptionWithoutMatch(d: Description, defs: Definitions)
    requires ShownDefinition(defs, d.objectType, d.pid).None?
    ensures DescriptionText(d, defs) == DescriptionText(d, None)
    ensures DescriptionText(d, defs) == DescriptionHead(d) + ", PDT " + PdtText(d, None) + DescriptionTail(d)
  {
  }

  /** A matching definition puts its name after the PID and fills in a missing PDT. */
  lemma DescriptionWithMatch(d: Description, defs: Definitions, def: PropertyDef)
    requires ShownDefinition(defs, d.objectType, d.pid) == Some(def)
    ensures DescriptionText(d, defs) ==
      DescriptionHead(d) + NamePart(Some(def)) + ", PDT " + PdtText(d, Some(def)) + DescriptionTail(d)
    ensures NamePart(Some(def)) == " (" + def.name + ")"
    ensures PdtText(d, Some(def)) == if d.pdt == -1 then IntToString(def.pdt) else IntToString(d.pdt)
  {
  }
}
