/** The part of rdflib the ontology model relies on: terms, triples, the RDF, RDFS and OWL
    vocabulary it uses, and the pattern queries of a graph, here a finite set of triples. */
module Rdf {

  /** A node of an RDF graph: a URIRef, a BNode or a Literal (treated as an opaque lexical
      value). `BNodeClass` is not a node: it stands for the rdflib `BNode` class object
      itself, which `Entity.__init__` stores as the uri when it is given none. */
  datatype Term =
    | Named(iri: string)
    | Anon(id: string)
    | Lit(lexical: string)
    | BNodeClass

  /** Python truthiness of a term: URIRef, BNode and Literal are strings, false when empty. */
  predicate Truthy(t: Term)
  {
    match t
    case Named(iri) => iri != ""
    case Anon(id) => id != ""
    case Lit(lexical) => lexical != ""
    case BNodeClass => true
  }

  datatype Triple = Triple(subj: Term, pred: Term, obj: Term)

  type Graph = set<Triple>

  const RdfType := Named("http://www.w3.org/1999/02/22-rdf-syntax-ns#type")
  const RdfsLabel := Named("http://www.w3.org/2000/01/rdf-schema#label")
  const RdfsComment := Named("http://www.w3.org/2000/01/rdf-schema#comment")
  const RdfsSubClassOf := Named("http://www.w3.org/2000/01/rdf-schema#subClassOf")
  const RdfsSubPropertyOf := Named("http://www.w3.org/2000/01/rdf-schema#subPropertyOf")
  const OwlOntology := Named("http://www.w3.org/2002/07/owl#Ontology")
  const OwlClass := Named("http://www.w3.org/2002/07/owl#Class")
  const OwlNamedIndividual := Named("http://www.w3.org/2002/07/owl#NamedIndividual")
  const OwlObjectProperty := Named("http://www.w3.org/2002/07/owl#ObjectProperty")
  const OwlAnnotationProperty := Named("http://www.w3.org/2002/07/owl#AnnotationProperty")
  const OwlDatatypeProperty := Named("http://www.w3.org/2002/07/owl#DatatypeProperty")
  const OwlVersionIri := Named("http://www.w3.org/2002/07/owl#versionIRI")
  const OwlImports := Named("http://www.w3.org/2002/07/owl#imports")
  /** The OBO "definition" annotation property. */
  const IaoDefinition := Named("http://purl.obolibrary.org/obo/IAO_0000115")

  /** `graph.subjects(p, o)`: the subjects of the triples with predicate `p` and object `o`. */
  function Subjects(g: Graph, p: Term, o: Term): (r: set<Term>)
    ensures forall s :: s in r <==> Triple(s, p, o) in g
  {
    set t | t in g && t.pred == p && t.obj == o :: t.subj
  }

  /** `graph.objects(s, p)`: the objects of the triples with subject `s` and predicate `p`. */
  function Objects(g: Graph, s: Term, p: Term): (r: set<Term>)
    ensures forall o :: o in r <==> Triple(s, p, o) in g
  {
    set t | t in g && t.subj == s && t.pred == p :: t.obj
  }

  /** `graph.predicate_objects(s)`: the (predicate, object) pairs of the triples about `s`. */
  function PredicateObjects(g: Graph, s: Term): (r: set<(Term, Term)>)
    ensures forall p, o :: (p, o) in r <==> Triple(s, p, o) in g
  {
    set t | t in g && t.subj == s :: (t.pred, t.obj)
  }

  /** Every term that is the subject, the predicate or the object of some triple. */
  function Nodes(g: Graph): set<Term>
  {
    (set t | t in g :: t.subj) + (set t | t in g :: t.pred) + (set t | t in g :: t.obj)
  }
}
