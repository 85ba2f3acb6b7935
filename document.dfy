/**
 * The class-level view of a Sanity document kind: what `TypeHelper.default_type`
 * reads from a class object, modelled as a plain value.
 *
 * Ruby reflection is replaced by data: identity with `Sanity::Document` is the
 * `isRoot` flag, `Class#to_s` is `name`, and whether the class responds to
 * `document_type` (and what that reader returns) is `documentType`.
 */
module SanityDocument {
  import opened Wrappers

  /** What a class answers when asked for its `document_type`. */
  datatype DocumentTypeSlot =
    | NoAccessor        // the class does not respond to `document_type` (a plain class)
    | Unset             // the reader exists and returns nil
    | Set(tag: string)  // the reader returns this override

  /** A class as seen by the type helper. */
  datatype Descriptor = Descriptor(isRoot: bool, name: string, documentType: DocumentTypeSlot)

  /** `Sanity::Document` itself: the abstract root, which has the accessor but no override. */
  const Root: Descriptor := Descriptor(true, "Sanity::Document", Unset)

  /** `klass.respond_to?(:document_type)`. */
  predicate RespondsToDocumentType(d: Descriptor) {
    !d.documentType.NoAccessor?
  }

  /** The class-level reader `klass.document_type`. */
  function DocumentType(d: Descriptor): Option<string>
    requires RespondsToDocumentType(d)
  {
    match d.documentType
    case Set(tag) => Some(tag)
    case _ => None
  }

  /**
   * The class-level writer `klass.document_type = v`: afterwards the reader
   * returns `v`, and nothing else about the class changes.
   */
  function WithDocumentType(d: Descriptor, v: Option<string>): (r: Descriptor)
    requires RespondsToDocumentType(d)
    ensures RespondsToDocumentType(r) && DocumentType(r) == v
    ensures r.isRoot == d.isRoot && r.name == d.name
  {
    match v
    case Some(tag) => d.(documentType := Set(tag))
    case None => d.(documentType := Unset)
  }

  /**
   * `Name = Class.new(parent)`: a fresh subclass is never the root, is named
   * by the constant it is assigned to, inherits the accessor from its parent,
   * and starts without an override.
   */
  function Subclass(parent: Descriptor, name: string): (r: Descriptor)
    ensures !r.isRoot && r.name == name
    ensures RespondsToDocumentType(r) <==> RespondsToDocumentType(parent)
    ensures RespondsToDocumentType(r) ==> DocumentType(r) == None
  {
    Descriptor(false, name, if RespondsToDocumentType(parent) then Unset else NoAccessor)
  }

  /**
   * A run of `klass.document_type = v` statements, in order: the reader then
   * returns the last value written (or what it returned before, if nothing was
   * written), and the class is otherwise unchanged.
   */
  function AssignAll(d: Descriptor, writes: seq<Option<string>>): (r: Descriptor)
    requires RespondsToDocumentType(d)
    ensures RespondsToDocumentType(r) && r.isRoot == d.isRoot && r.name == d.name
    ensures DocumentType(r) == if writes == [] then DocumentType(d) else writes[|writes| - 1]
    decreases |writes|
  {
    if writes == [] then d else AssignAll(WithDocumentType(d, writes[0]), writes[1..])
  }
}
