/**
 * `Sanity::TypeHelper.default_type`: the wire-level `_type` tag of a document
 * class, derived from its `document_type` override or else from its class name,
 * with only the first character lower-cased.
 */
module TypeHelper {
  import opened Wrappers
  import opened SanityDocument

  predicate IsAsciiUpper(c: char) { 'A' <= c <= 'Z' }

  predicate IsAsciiLower(c: char) { 'a' <= c <= 'z' }

  /** `String#downcase` on one character, restricted to ASCII letters. */
  function Lower(c: char): (l: char)
    ensures !IsAsciiUpper(l)
    ensures IsAsciiUpper(c) ==> IsAsciiLower(l) && l as int - c as int == 'a' as int - 'A' as int
    ensures !IsAsciiUpper(c) ==> l == c
  {
    if IsAsciiUpper(c) then (c as int + ('a' as int - 'A' as int)) as char else c
  }

  /** `type[0].downcase + type[1..]`: only index 0 may change. */
  function DecapFirst(s: string): (r: string)
    requires s != []
    ensures |r| == |s|
    ensures r[0] == Lower(s[0])
    ensures forall i :: 1 <= i < |s| ==> r[i] == s[i]
  {
    [Lower(s[0])] + s[1..]
  }

  /** The error Ruby raises when the raw string is empty: `""[0]` is nil and nil has no `downcase`. */
  datatype DefaultTypeError = UndefinedDowncaseForNil

  /**
   * The raw string chosen before decapitalisation: the override when the class
   * responds to `document_type` and it is not nil, otherwise the class name.
   */
  function RawType(d: Descriptor): (raw: string)
    ensures RespondsToDocumentType(d) && DocumentType(d).Some? ==> raw == DocumentType(d).value
    ensures !(RespondsToDocumentType(d) && DocumentType(d).Some?) ==> raw == d.name
  {
    match d.documentType
    case Set(tag) => tag
    case _ => d.name
  }

  /**
   * `TypeHelper.default_type(klass)`: `Success(None)` for `Sanity::Document`,
   * the error for an empty raw string, and otherwise the decapitalised raw string.
   */
  function DefaultType(d: Descriptor): (r: Result<Option<string>, DefaultTypeError>)
    ensures r == Success(None) <==> d.isRoot
    ensures r.Failure? <==> !d.isRoot && (if d.documentType.Set? then d.documentType.tag == [] else d.name == [])
    ensures r.Success? && r.value.Some? ==> r.value.value != [] && !IsAsciiUpper(r.value.value[0])
  {
    if d.isRoot then Success(None)
    else
      var raw := RawType(d);
      if raw == [] then Failure(UndefinedDowncaseForNil) else Success(Some(DecapFirst(raw)))
  }

  /** A string comes back unchanged exactly when its first character is not an upper-case letter. */
  lemma DecapFirstFixpoint(s: string)
    requires s != []
    ensures DecapFirst(s) == s <==> !IsAsciiUpper(s[0])
  {
  }

  /** Decapitalising twice is decapitalising once. */
  lemma DecapFirstIdempotent(s: string)
    requires s != []
    ensures DecapFirst(DecapFirst(s)) == DecapFirst(s)
  {
    DecapFirstFixpoint(DecapFirst(s));
  }

  /** The `Sanity::Document` root yields nil whatever its name and override. */
  lemma RootHasNoType(name: string, slot: DocumentTypeSlot)
    ensures DefaultType(Descriptor(true, name, slot)) == Success(None)
  {
  }

  /** A non-nil override is the raw string; the class name plays no part. */
  lemma OverrideWins(d: Descriptor, tag: string)
    requires !d.isRoot && d.documentType == Set(tag) && tag != []
    ensures DefaultType(d) == Success(Some(DecapFirst(tag)))
  {
  }

  /** An override set to the empty string is not nil, so it is chosen and the lowering raises. */
  lemma EmptyOverrideRaises(d: Descriptor)
    requires !d.isRoot && d.documentType == Set([])
    ensures DefaultType(d) == Failure(UndefinedDowncaseForNil)
  {
  }

  /**
   * The root is recognised by identity, not by its fields: a non-root class
   * with the root's name and override never resolves as the root does.
   */
  lemma RootByIdentity(d: Descriptor, e: Descriptor)
    requires d.isRoot && !e.isRoot
    requires d.name == e.name && d.documentType == e.documentType
    ensures DefaultType(d) == Success(None) != DefaultType(e)
  {
  }

  /** Without the accessor, or with the override nil, the class name is the raw string. */
  lemma NameFallback(d: Descriptor)
    requires !d.isRoot && !d.documentType.Set? && d.name != []
    ensures DefaultType(d) == Success(Some(DecapFirst(d.name)))
  {
  }

  /** Every resolved tag has the raw string's length, its first character lowered and the rest verbatim. */
  lemma ResolvedTagShape(d: Descriptor)
    requires DefaultType(d).Success? && DefaultType(d).value.Some?
    ensures var tag, raw := DefaultType(d).value.value, RawType(d);
      raw != [] && |tag| == |raw| && tag[0] == Lower(raw[0]) && tag[1..] == raw[1..]
  {
  }

  /**
   * A resolved tag is a fixed point of resolution: giving it back to any
   * non-root class as its override resolves to the same tag.
   */
  lemma ResolvedTagIsStable(d: Descriptor, e: Descriptor)
    requires DefaultType(d).Success? && DefaultType(d).value.Some?
    requires !e.isRoot && e.documentType == Set(DefaultType(d).value.value)
    ensures DefaultType(e) == DefaultType(d)
  {
  }

  /** After a run of `document_type =` writes only the last one matters. */
  lemma LastWriteDecides(d: Descriptor, writes: seq<Option<string>>)
    requires RespondsToDocumentType(d) && writes != []
    ensures DefaultType(AssignAll(d, writes)) == DefaultType(WithDocumentType(d, writes[|writes| - 1]))
  {
  }

  /** Setting the override and then clearing it to nil restores the name-derived tag. */
  lemma ClearingRestoresName(d: Descriptor, writes: seq<Option<string>>)
    requires RespondsToDocumentType(d) && !d.isRoot && d.name != []
    requires writes != [] && writes[|writes| - 1] == None
    ensures DefaultType(AssignAll(d, writes)) == Success(Some(DecapFirst(d.name)))
  {
  }
}
