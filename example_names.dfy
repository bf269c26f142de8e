/**
 * How a sample request and the five attraction names, both lower-cased,
 * contain one another. These facts are about the strings alone; the
 * catalog is tied to them in ToolExamples.
 */
module ExampleNames {
  import opened Text

  /** The display names of the five attractions, in catalog order. */
  const AttractionNames: seq<string> :=
    ["Laguna Parón", "Laguna 69", "Nevado Pastoruri", "Laguna Llanganuco", "Chavín de Huántar"]

  /** A name without an x and with a letter `c` that "xyz-nonexistent" lacks: neither contains the other. */
  lemma UnknownNameMisses(name: string, c: char)
    requires c in "lvc" && c in Lower(name)
    requires 'x' !in name && 'X' !in name
    ensures !Contains(Lower(name), Lower("xyz-nonexistent"))
    ensures !Contains(Lower("xyz-nonexistent"), Lower(name))
  {
    var u := Lower("xyz-nonexistent");
    assert u[0] == 'x';
    LowerLacks("xyz-nonexistent", c);
    LowerLacks(name, 'x');
    NeitherContains(Lower(name), u, c, 'x');
  }

  /** The three lagoons start with an l, which "xyz-nonexistent" lacks. */
  lemma UnknownNameMissesLagunas()
    ensures forall n :: n in ["Laguna Parón", "Laguna 69", "Laguna Llanganuco"] ==>
      !Contains(Lower(n), Lower("xyz-nonexistent")) && !Contains(Lower("xyz-nonexistent"), Lower(n))
  {
    assert Lower("Laguna Parón")[0] == 'l';
    UnknownNameMisses("Laguna Parón", 'l');
    assert Lower("Laguna 69")[0] == 'l';
    UnknownNameMisses("Laguna 69", 'l');
    assert Lower("Laguna Llanganuco")[0] == 'l';
    UnknownNameMisses("Laguna Llanganuco", 'l');
  }

  /** The glacier has a v and the ruins a c, neither of which "xyz-nonexistent" has. */
  lemma UnknownNameMissesOthers()
    ensures forall n :: n in ["Nevado Pastoruri", "Chavín de Huántar"] ==>
      !Contains(Lower(n), Lower("xyz-nonexistent")) && !Contains(Lower("xyz-nonexistent"), Lower(n))
  {
    assert Lower("Nevado Pastoruri")[2] == 'v';
    UnknownNameMisses("Nevado Pastoruri", 'v');
    assert Lower("Chavín de Huántar")[0] == 'c';
    UnknownNameMisses("Chavín de Huántar", 'c');
  }

  /** "xyz-nonexistent" and no attraction name contain one another, either way round. */
  lemma UnknownNameMissesAll()
    ensures forall n :: n in AttractionNames ==>
      !Contains(Lower(n), Lower("xyz-nonexistent")) && !Contains(Lower("xyz-nonexistent"), Lower(n))
  {
    UnknownNameMissesLagunas();
    UnknownNameMissesOthers();
  }
}
