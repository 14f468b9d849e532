/**
 * Persons, and the dynamically typed arguments the engine accepts where it
 * expects persons.
 */
module People {

  /**
   * A participant. Python's Person compares equal (and hashes) by name only,
   * which is exactly the structural equality of this datatype.
   */
  datatype Person = Person(name: string)

  /** The text of `str(person)`: the name followed by two spaces. */
  function Str(p: Person): (s: string)
    ensures |s| == |p.name| + 2 && s[..|p.name|] == p.name && s[|p.name|..] == "  "
  {
    p.name + "  "
  }

  /** One element handed to a money split: a Person, or a bare string by mistake. */
  datatype Arg = Text(s: string) | Someone(p: Person)

  /**
   * What `addPersons` receives: a bare string (which the source rejects) or
   * an iterable of persons.
   */
  datatype PersonsArg = Bare(s: string) | Members(ps: seq<Person>)

  /** The persons a collection argument contributes. */
  function MembersOf(ps: seq<Person>): (r: set<Person>)
    ensures forall p :: p in r <==> p in ps
  {
    set p | p in ps
  }
}
