# Sanity type helper — a verified model

This project models `Sanity::TypeHelper.default_type` from the `sanity-ruby` gem. The function derives the
wire-level `_type` tag of a Sanity document class:

- The abstract root class `Sanity::Document` has no tag (`nil`).
- Any other class takes a raw string: its `document_type` override if it responds to `document_type` and
  that reader returns a non-nil value, else its class name.
- Only the first character of the raw string is lower-cased. The rest is kept verbatim.

Ruby reflection is replaced by data. `SanityDocument.Descriptor` holds three things:

- whether the class *is* `Sanity::Document` (`isRoot`, an identity flag, not a structural test);
- its `Class#to_s` (`name`);
- what its `document_type` reader answers (`NoAccessor` for a plain class such as `Foobar`, `Unset` for nil,
  `Set(tag)` for an override).

The class-level writer `document_type =` is modelled as a value update (`WithDocumentType`). A run of such
writes is `AssignAll`.

The source crashes on an empty raw string: `""[0]` is nil and `nil.downcase` raises `NoMethodError`. An
override set to `""` is truthy in Ruby, so it reaches this crash. The model keeps this path as
`Failure(UndefinedDowncaseForNil)` instead of a precondition, so it states exactly which classes raise.

The code passes the
explicit `document_type` override through first-letter decapitalisation as well; it does not use it
verbatim (lib/sanity/helpers/type_helper.rb:8-15).

Files:

- `wrappers.dfy`: `Option` and `Result`.
- `document.dfy`: the class descriptor and its `document_type` reader and writer.
- `type_helper.dfy`: `default_type` and its properties.
- `type_helper_examples.dfy`: the scenarios the repository's tests fix.

## Model

| member | source | states |
|---|---|---|
| SanityDocument.WithDocumentType | test/sanity/resources/document_test.rb:27-30 | after `document_type = v` the reader returns `v`; root identity and name are unchanged |
| SanityDocument.Subclass | test/sanity/resources/document_test.rb:33-34 | `Class.new(parent)` is never the root, inherits the parent's accessor (or lack of one), and starts with a nil override |
| SanityDocument.AssignAll | test/sanity/resources/document_test.rb:37-42 | after a run of writes, the reader returns the last value written; with no writes it returns what it returned before; nothing else changes |
| TypeHelper.Lower | lib/sanity/helpers/type_helper.rb:15 | the result is never an upper-case ASCII letter; an upper-case letter maps to its lower-case partner; every other character is unchanged |
| TypeHelper.DecapFirst | lib/sanity/helpers/type_helper.rb:15 | same length as the input; index 0 is the lowered first character; every later index is unchanged |
| TypeHelper.RawType | lib/sanity/helpers/type_helper.rb:8-13 | the raw string is the `document_type` reader's value when the class responds to it and the value is not nil, and the class name otherwise |
| TypeHelper.DefaultType | lib/sanity/helpers/type_helper.rb:5-16 | nil exactly for the root; raises exactly when the class is not the root and its override is `""`, or it has no override and its name is empty; any tag returned is non-empty and starts with no upper-case letter |
| TypeHelper.EmptyOverrideRaises | lib/sanity/helpers/type_helper.rb:9-15 | a non-root class whose override is `""` raises, because the empty string is not nil and has no first character |
| TypeHelper.RootByIdentity | lib/sanity/helpers/type_helper.rb:6 | a non-root class with the root's name and override never yields the root's nil |
| TypeHelper.DecapFirstFixpoint | lib/sanity/helpers/type_helper.rb:15 | a string comes back unchanged if and only if its first character is not upper-case |
| TypeHelper.DecapFirstIdempotent | lib/sanity/helpers/type_helper.rb:15 | decapitalising twice equals decapitalising once |
| TypeHelper.RootHasNoType | lib/sanity/helpers/type_helper.rb:6 | the root yields nil whatever its name or override |
| TypeHelper.OverrideWins | lib/sanity/helpers/type_helper.rb:9-10 | a non-nil, non-empty override is the raw string, decapitalised; the class name plays no part |
| TypeHelper.NameFallback | lib/sanity/helpers/type_helper.rb:9-12 | a class without the accessor, or with the override nil, yields its decapitalised class name |
| TypeHelper.ResolvedTagShape | lib/sanity/helpers/type_helper.rb:8-15 | a resolved tag has the raw string's length and its lowered first character, and `tag[1..] == raw[1..]` |
| TypeHelper.ResolvedTagIsStable | lib/sanity/helpers/type_helper.rb:9-15 | giving a resolved tag back to any non-root class as its override resolves to the same tag |
| TypeHelper.LastWriteDecides | lib/sanity/helpers/type_helper.rb:9-10 | after a run of `document_type =` writes, the tag depends only on the last write |
| TypeHelper.ClearingRestoresName | lib/sanity/helpers/type_helper.rb:9-12 | when the last write is nil, a non-root class yields its decapitalised class name again |
| TypeHelperExamples.RootExample | test/sanity/helpers/type_helper_test.rb:9-11 | `Sanity::Document` yields nil |
| TypeHelperExamples.PlainClassExample | test/sanity/helpers/type_helper_test.rb:14-16 | the plain class `Foobar` yields `"foobar"` |
| TypeHelperExamples.SubclassExample | test/sanity/helpers/type_helper_test.rb:20-26 | `Quux = Class.new(Sanity::Document)` yields `"quux"` |
| TypeHelperExamples.OverrideExample | test/sanity/helpers/type_helper_test.rb:29-37 | `BarBaz` with override `"custom_type"` yields `"custom_type"` |
| TypeHelperExamples.RootOverrideExample | test/sanity/resources/document_test.rb:27-42 | the root reads back an override that was set on it, still yields nil, and reads nil after the override is cleared |

## Left out

- The CRUD surface of `Sanity::Document`: `create`, `create_or_replace`, `create_if_not_exists`, `patch`, `delete`, `find` and `where`. These are remote calls to the Sanity HTTP API, and their implementation is not part of this model.
- The `_id` and `_type` instance attributes: their implementation is not part of this model.
- SanityDocument.Subclass, SanityDocument.WithDocumentType and SanityDocument.AssignAll: the `document_type` reader and writer follow test/sanity/resources/document_test.rb:26-42, and their code is not part of this model. The test shows only a subclass of `Sanity::Document` starting with a nil override. That every fresh subclass starts nil, whatever its parent's override, is an assumption of the model.
- Ruby reflection (`respond_to?`, `Class#to_s`, `==` on classes) is replaced by the descriptor's fields. An anonymous class's generated name (`#<Class:0x…>`) is not modelled; a name is always given.
- The `document_type` writer mutates class-level state in place. It is modelled on values (`WithDocumentType`, `AssignAll`), so aliasing and concurrent writers are not captured.
- `document_type.to_s` on an override that is not a string (a Symbol, say) is not modelled: overrides are strings. A `false` override, which Ruby treats like nil, is not modelled either.
- TypeHelper.Lower: covers ASCII letters only. Ruby's `String#downcase` applies full Unicode case mapping, which this model does not. Under that mapping one character can become several (`"İ".downcase` has two code points), so `DecapFirst` and `ResolvedTagShape` keep the length only under the ASCII model.
