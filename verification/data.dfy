/** The two record shapes the demo servers answer `/info` with.

The Kotlin source builds them as two subclasses of one abstract class; here
they are the two variants of one datatype. Omitted constructor arguments
take the same default values the Kotlin constructors declare, so `Base()`
is `Data()` and `Extended()` is `DataOptional()`.
 */
module Data {

  /** The nested record; `Element()` has `inner == true`. */
  datatype Element = Element(inner: bool := true)

  /** The default field values shared by both shapes. */
  const DefaultId := 123
  const DefaultName := "Sier"
  const DefaultElements: seq<Element> := [Element()]
  /** The default value of the field only the extended shape carries. */
  const DefaultOptional := "Added"

  /** The fields every response has, the model of the abstract base class. */
  datatype AbstractData = AbstractData(
    id: int := DefaultId,
    name: string := DefaultName,
    elements: seq<Element> := DefaultElements)

  /** A response body: the base record, or the base record plus `optional`. */
  datatype Response =
    | Base(
        id: int := DefaultId,
        name: string := DefaultName,
        elements: seq<Element> := DefaultElements)
    | Extended(
        id: int := DefaultId,
        name: string := DefaultName,
        elements: seq<Element> := DefaultElements,
        optional: string := DefaultOptional)

  /** View any response as its base-class part. Both shapes pass their three
      common fields through unchanged. */
  function Abstract(r: Response): (a: AbstractData)
    ensures a.id == r.id && a.name == r.name && a.elements == r.elements
  {
    AbstractData(r.id, r.name, r.elements)
  }

  /** Add the `optional` field to a record; the common fields are kept. */
  function WithOptional(r: Response, optional: string): (e: Response)
    ensures e.Extended? && e.optional == optional
    ensures Abstract(e) == Abstract(r)
  {
    Extended(r.id, r.name, r.elements, optional)
  }

  /** For any field values, not just the defaults, both shapes hand their
      three common fields to the base part unchanged. */
  lemma SharedFields(id: int, name: string, elements: seq<Element>, optional: string)
    ensures Abstract(Base(id, name, elements)) == Abstract(Extended(id, name, elements, optional))
    ensures Abstract(Base(id, name, elements)) == AbstractData(id, name, elements)
  {
  }

  /** The two default records differ only in the extended field: their
      common part is the default base record. */
  lemma DefaultShapes()
    ensures Abstract(Base()) == Abstract(Extended()) == AbstractData()
    ensures AbstractData() == AbstractData(123, "Sier", [Element(true)])
    ensures Extended().optional == "Added"
    ensures WithOptional(Base(), DefaultOptional) == Extended()
  {
  }
}
