/** `useIconFileType`: the icon component shown for a file's MIME type,
    looked up in a fixed table with a generic icon as the fallback. */
module IconFileType {
  import opened Drive

  const Common := "icon-type-common"

  /** The table: MIME type to icon component. */
  const IconTypes: map<string, string> := map[
    "video/mp4" := "icon-type-video",
    "image/jpeg" := "icon-type-image",
    "image/jpg" := "icon-type-image",
    "image/png" := "icon-type-image",
    "application/zip" := "icon-type-zip",
    "application/msword" := "icon-type-doc",
    "application/vnd.ms-excel" := "icon-type-excel",
    "application/pdf" := "icon-type-pdf"]

  /** The icon components there are. */
  const IconNames: set<string> := {
    "icon-type-video", "icon-type-image", "icon-type-zip", "icon-type-doc",
    "icon-type-excel", "icon-type-pdf", Common}

  /** The property key of `iconTypes[type]`: an absent type reads the key
      "undefined". */
  function PropertyKey(t: Option<string>): string {
    if t.Some? then t.value else "undefined"
  }

  /** The members every plain object literal inherits from Object.prototype. */
  const ObjectPrototypeMembers: set<string> := {
    "constructor", "hasOwnProperty", "isPrototypeOf", "propertyIsEnumerable",
    "toLocaleString", "toString", "valueOf", "__proto__",
    "__defineGetter__", "__defineSetter__", "__lookupGetter__", "__lookupSetter__"}

  /** What a property read on the table yields: an icon name it holds
      itself, a function or object it inherits (always truthy), or
      `undefined`. */
  datatype Property = Own(name: string) | Inherited(member: string) | Undefined

  function Read(key: string): (p: Property)
    ensures p.Own? <==> key in IconTypes
    ensures p.Inherited? ==> key in ObjectPrototypeMembers
  {
    if key in IconTypes then Own(IconTypes[key])
    else if key in ObjectPrototypeMembers then Inherited(key)
    else Undefined
  }

  /** The table's keys are MIME types, none of them an inherited member name. */
  lemma TableKeysAreNotInherited()
    ensures forall k :: k in IconTypes ==> k !in ObjectPrototypeMembers
  {
  }

  /** `iconTypes[type] ? iconTypes[type] : 'icon-type-common'`, as written:
      the read goes through the prototype chain, so an inherited member is
      truthy and is returned in place of an icon name. */
  function IconLookup(t: Option<string>): (r: Property)
    ensures !r.Undefined?
    ensures r.Inherited? <==> PropertyKey(t) in ObjectPrototypeMembers
  {
    match Read(PropertyKey(t))
    case Undefined => Own(Common)
    case p => p
  }

  /** The lookup as evidently intended: only the table's own keys count,
      anything else gets the generic icon. */
  function IconFor(t: Option<string>): (r: string)
    ensures r in IconNames
    ensures r != Common <==> t.Some? && t.value in IconTypes
    ensures t.Some? && t.value in IconTypes ==> r == IconTypes[t.value]
  {
    if t.Some? && t.value in IconTypes then IconTypes[t.value] else Common
  }

  /** Both agree on every type that is not an inherited member name. */
  lemma IconLookupAgrees(t: Option<string>)
    ensures PropertyKey(t) !in ObjectPrototypeMembers ==> IconLookup(t) == Own(IconFor(t))
  {
  }

  /** As written, the type "constructor" yields the inherited Object
      constructor instead of an icon component name. */
  lemma ConstructorEscapes()
    ensures IconLookup(Some("constructor")) == Inherited("constructor")
    ensures IconFor(Some("constructor")) == Common
  {
  }

  /** Each type of the table gets its own icon: the three image types
      share the image icon. The match is exact, so a differently cased type
      falls back to the generic icon, as does a missing type. */
  lemma IconExamples()
    ensures IconFor(Some("video/mp4")) == "icon-type-video"
    ensures IconFor(Some("image/jpeg")) == IconFor(Some("image/png")) == IconFor(Some("image/jpg")) == "icon-type-image"
    ensures IconFor(Some("application/zip")) == "icon-type-zip"
    ensures IconFor(Some("application/msword")) == "icon-type-doc"
    ensures IconFor(Some("application/vnd.ms-excel")) == "icon-type-excel"
    ensures IconFor(Some("application/pdf")) == "icon-type-pdf"
    ensures IconFor(Some("IMAGE/PNG")) == Common
    ensures IconFor(None) == Common
  {
  }
}
