/** The concrete scenarios the repository's tests pin down, as lemmas about the model. */
module TypeHelperExamples {
  import opened Wrappers
  import opened SanityDocument
  import opened TypeHelper

  /** `class Foobar; end`: a plain class with no `document_type` reader. */
  const Foobar: Descriptor := Descriptor(false, "Foobar", NoAccessor)

  lemma RootExample()
    ensures DefaultType(Root) == Success(None)
  {
  }

  lemma PlainClassExample()
    ensures DefaultType(Foobar) == Success(Some("foobar"))
  {
    assert Lower('F') == 'f';
    assert DecapFirst("Foobar") == ['f'] + "oobar" == "foobar";
  }

  lemma SubclassExample()
    ensures DefaultType(Subclass(Root, "Quux")) == Success(Some("quux"))
  {
    assert Lower('Q') == 'q';
    assert DecapFirst("Quux") == ['q'] + "uux" == "quux";
  }

  lemma OverrideExample()
    ensures DefaultType(WithDocumentType(Subclass(Root, "BarBaz"), Some("custom_type")))
            == Success(Some("custom_type"))
  {
    DecapFirstFixpoint("custom_type");
  }

  /** Setting an override on `Sanity::Document` itself still yields nil, and setting it back to nil reads nil. */
  lemma RootOverrideExample()
    ensures DocumentType(WithDocumentType(Root, Some("custom_type"))) == Some("custom_type")
    ensures DefaultType(WithDocumentType(Root, Some("custom_type"))) == Success(None)
    ensures DocumentType(AssignAll(Root, [Some("custom_type"), None])) == None
  {
  }
}
