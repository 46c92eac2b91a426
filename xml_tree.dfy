/** The generic element tree that the XML parser hands to the mapper.
    The mapper only looks children up by tag name, reads the first
    occurrence of a tag, walks the occurrences in order, and reads the
    attribute map; this module gives those lookups their meaning. */
module XmlTree {

  /** One occurrence of an element, as the parser delivers it.
      An element with neither attributes nor children comes out as its
      character data alone (`Text`, possibly empty). Any other element is
      an object (`Elem`): its attribute map (the parser's `$` key, absent
      when the element has no attributes) and, for each child tag, the
      occurrences of that tag in document order. */
  datatype Node =
    | Text(text: string)
    | Elem(attrs: map<string, string>, children: map<string, seq<Node>>)

  /** Property lookup `node[tag]` for a child tag: a text occurrence is a
      string and has none of the tags the mapper asks for. */
  function Children(n: Node): (c: map<string, seq<Node>>)
    ensures n.Text? ==> c == map[]
  {
    if n.Elem? then n.children else map[]
  }

  /** Whether `node['$']` is defined: only an element with at least one
      attribute carries an attribute map. */
  predicate HasAttributeMap(n: Node)
  {
    n.Elem? && n.attrs != map[]
  }
}
