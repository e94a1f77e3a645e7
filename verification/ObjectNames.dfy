/**
 * Names that every plain object answers to. The tables of the bridge are plain objects that are indexed
 * directly, so a lookup under such a name finds a member although no entry was ever stored.
 */
module ObjectNames {

  /** A name inherited by every plain object. */
  predicate Inherited(name: string) {
    name in {"constructor", "toString", "toLocaleString", "valueOf", "hasOwnProperty", "isPrototypeOf",
             "propertyIsEnumerable", "__defineGetter__", "__defineSetter__", "__lookupGetter__",
             "__lookupSetter__", "__proto__"}
  }
}
