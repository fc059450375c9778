# owllib ontology and entities, modelled in Dafny

owllib wraps an RDF triple store (an rdflib `Graph`) holding an OWL ontology. It gives the
store's subjects typed Python objects: classes, named individuals, and object, data and
annotation properties. The `Ontology` object does three things:

- it loads those entities from the `rdf:type` declarations in the graph;
- `convert` resolves a URIRef or blank node to the entity that carries it;
- it answers attribute queries (annotations, labels, comments, definitions) by the
  entity's uri.

An `Entity` object keeps its own copy of those attributes and of its parents and children in
the class or property hierarchy. `sync_from_ontology` refreshes that copy from the ontology.

The project has four modules:

- `Wrappers` (`wrappers.dfy`): option and result values. The error cases are the Python
  exceptions the code raises.
- `Rdf` (`rdf.dfy`): RDF terms, triples, the graph as a set of triples, the vocabulary IRIs
  the code uses, and the rdflib queries it calls (`subjects`, `objects`, `predicate_objects`,
  and the union of all nodes).
- `Owl` (`owl.dfy`): the `Entity` and `Ontology` classes. Their fields are updated in place
  as in the source. Where the source runs a loop (the loaders, the search in `convert`,
  `get_annotations`), the model has a method with that loop, proved against a specification
  function or predicate. Where the source uses a comprehension (`exists`, `get_labels`,
  `get_comments`, `get_definitions`), the model has a function. The two classes call each
  other, so they share one module.
- `OwlFacts` (`owl_facts.dfy`): lemmas about `convert`, the constructor and the hierarchy
  queries.

Some of the code's behaviour is easy to miss on a first reading; the model keeps it as written:

- `convert` searches classes, object properties, annotation properties, object properties
  a second time, and then individuals. It never searches data properties.
- An identifier that is in the graph but belongs to no collection is not an error. `convert`
  then returns nothing, and a later `.uri` on that nothing raises `AttributeError`.
- The constructor fills `annotation_properties` with the object-property loader.
  `_load_annotation_properties` exists but is never called.
- `individuals` is loaded twice.

`ConvertByDeclaration` shows what these choices add up to. A term resolves to a class, else
to an object property, else to an individual, and never to a data or annotation property.

## Model

| member | source | states |
|---|---|---|
| Rdf.Subjects | owllib/ontology.py:41 | `graph.subjects(p, o)`: exactly the subjects of the triples with that predicate and object |
| Rdf.Objects | owllib/ontology.py:174 | `graph.objects(s, p)`: exactly the objects of the triples with that subject and predicate |
| Rdf.PredicateObjects | owllib/ontology.py:159 | `graph.predicate_objects(s)`: exactly the (predicate, object) pairs of the triples about `s` |
| Owl.Enumerate | owllib/ontology.py:41 | listing a set of subjects gives each member exactly once and nothing else |
| Owl.LoadedFromList | owllib/ontology.py:43-48 | one entity built per listed subject, with that subject's uri, makes a collection with the kind, owner and uris of the declared subjects, and with no named uri twice |
| Owl.FirstMatch | owllib/ontology.py:134-136 | a `for ... if entity == x.uri: return x` search gives nothing exactly when no element carries the uri; otherwise it gives an element that carries it, and no earlier element does |
| Owl.Search | owllib/ontology.py:134-136 | the search loop returns the first element whose uri equals the term |
| Owl.Entity.constructor | owllib/entities.py:9-34 | a falsy uri becomes the `BNode` class; missing or empty labels, comments and definitions become empty sets; annotations, triples, parents and children start empty |
| Owl.Entity.IsNamed | owllib/entities.py:65-70 | true exactly when the uri is a URIRef, so false for a blank node and for the `BNode` class default |
| Owl.Entity.Parents | owllib/entities.py:59-144 | base class raises NotImplementedError; no ontology raises ValueError; a class gives the classes it is `rdfs:subClassOf`; an individual gives the classes it is an `rdf:type` of; a property gives the properties it is `rdfs:subPropertyOf` |
| Owl.Entity.Children | owllib/entities.py:62-155 | an individual always gives the empty set, even without an ontology; the base class raises NotImplementedError; a class gives its `rdfs:subClassOf` children; a property gives its `rdfs:subPropertyOf` children; otherwise no ontology raises |
| Owl.Entity.SyncFromOntology | owllib/entities.py:36-50 | no ontology raises; a base-class entity fails on the first query and is left as it was; otherwise every derived attribute is replaced by what the ontology holds now |
| Owl.Ontology.constructor | owllib/ontology.py:12-38 | the uri is the document's declared ontology, or a fresh blank node; the graph is the document plus exactly the ontology declaration, version triple and import triples; all five collections are loaded from the declarations |
| Owl.Ontology.AddDeclarations | owllib/ontology.py:22-31 | adds the ontology's `rdf:type owl:Ontology` triple, the `owl:versionIRI` triple on the `uri` argument when a version is given, and one `(u, owl:imports, u)` triple per import, and nothing else |
| Owl.Ontology.LoadCollections | owllib/ontology.py:33-38 | after loading, each collection holds exactly the subjects of its `rdf:type` declaration; annotation properties come from the `owl:ObjectProperty` declarations |
| Owl.Ontology.Load | owllib/ontology.py:40-90 | one entity of the given kind and owner per subject declared with the type, with uri equal to that subject |
| Owl.Ontology.LoadClasses | owllib/ontology.py:40-48 | one Class per subject declared `owl:Class` |
| Owl.Ontology.LoadIndividuals | owllib/ontology.py:50-59 | one Individual per subject declared `owl:NamedIndividual` |
| Owl.Ontology.LoadObjectProperties | owllib/ontology.py:61-69 | one ObjectProperty per subject declared `owl:ObjectProperty` |
| Owl.Ontology.LoadAnnotationProperties | owllib/ontology.py:72-80 | one AnnotationProperty per subject declared `owl:AnnotationProperty` |
| Owl.Ontology.LoadDataProperties | owllib/ontology.py:82-90 | one DataProperty per subject declared `owl:DatatypeProperty` |
| Owl.Ontology.Exists | owllib/ontology.py:92-100 | true exactly when the term is the subject, predicate or object of some triple |
| Owl.Ontology.Converted | owllib/ontology.py:102-152 | entities of the five kinds and Literals come back unchanged; a base-class entity gives nothing; a URIRef or BNode absent from the graph raises ValueError; a present one gives nothing or an entity carrying that uri |
| Owl.Ontology.Convert | owllib/ontology.py:102-152 | the isinstance chain and the five search loops return exactly what `Converted` describes |
| Owl.Ontology.EntityOf | owllib/ontology.py:172-174 | the `.uri` read after `convert` fails exactly when `convert` raised, or gave nothing, or gave a Literal; otherwise it reads the converted entity |
| Owl.Ontology.GetAnnotations | owllib/ontology.py:154-167 | fails as `convert` plus `.uri` fails; otherwise gives one annotation from this ontology per (predicate, object) of the entity whose predicate is declared `owl:AnnotationProperty`, none twice |
| Owl.Ontology.ObjectsOf | owllib/ontology.py:169-194 | fails as `convert` plus `.uri` fails; otherwise gives exactly the objects of the entity's triples with the predicate |
| Owl.Ontology.GetLabels | owllib/ontology.py:169-176 | the entity's `rdfs:label` objects, failing exactly when the lookup fails |
| Owl.Ontology.GetComments | owllib/ontology.py:178-185 | the entity's `rdfs:comment` objects, failing exactly when the lookup fails |
| Owl.Ontology.GetDefinitions | owllib/ontology.py:187-194 | the entity's `obo:IAO_0000115` objects, failing exactly when the lookup fails |
| OwlFacts.FirstMatchAppend | owllib/ontology.py:134-152 | consecutive search loops act as one search over the concatenated collections |
| OwlFacts.ConvertSearchOrder | owllib/ontology.py:130-152 | a present identifier resolves to the first entity carrying it over classes, object properties, annotation properties, object properties and individuals, in that order |
| OwlFacts.ConvertAbsent | owllib/ontology.py:130-132 | an identifier in no triple raises ValueError in `convert`, and so in `get_labels` |
| OwlFacts.NoMatchOutside | owllib/ontology.py:40-90 | a loaded collection holds no entity for a node that was not declared with its type |
| OwlFacts.MatchInside | owllib/ontology.py:40-90 | a loaded collection holds an entity for every truthy node declared with its type |
| OwlFacts.SameSubjectsSameMatches | owllib/ontology.py:35-36 | the annotation-property collection holds the same uris as the object-property collection, so the annotation-property search in `convert` never finds anything new |
| OwlFacts.ConvertByDeclaration | owllib/ontology.py:102-152 | a present identifier resolves exactly when it is truthy and declared a class, object property or named individual, to a Class, else an ObjectProperty, else an Individual; never to a data or annotation property |
| OwlFacts.ConvertIdempotent | owllib/ontology.py:104-127 | `convert(convert(x)) == convert(x)` whenever `convert(x)` gives something |
| OwlFacts.AttributesByIdentifierOrEntity | owllib/ontology.py:169-194 | labels, comments and definitions are the same whether asked for by identifier or by the entity it resolves to, and are the objects of the identifier's own triples |
| OwlFacts.AttributeQueryFailures | owllib/ontology.py:169-176 | a Literal has no uri to query; an entity's query succeeds exactly when it is one of the five kinds |
| OwlFacts.AdditionsDeclareNoEntities | owllib/ontology.py:22-38 | the constructor's own triples declare no entity, so the collections come from the document's declarations alone |
| OwlFacts.ImportsAreSelfLoops | owllib/ontology.py:27-31 | each import uri gets a `(u, owl:imports, u)` triple; among the triples the constructor adds, the new ontology is the subject of an `owl:imports` triple only when it imports itself |
| OwlFacts.VersionTripleSubject | owllib/ontology.py:24-25 | the constructor adds an `(s, owl:versionIRI, v)` triple exactly when a truthy version `v` is given and `s` is the `uri` argument, so the ontology's own uri gets none unless it equals that argument, and no version triple is added without a version |
| OwlFacts.ClassHierarchyDual | owllib/entities.py:80-100 | for classes of one ontology, `b` is among `a`'s parents exactly when `a` is among `b`'s children |
| OwlFacts.PropertyHierarchyDual | owllib/entities.py:135-155 | for properties of one ontology, `q` is among `p`'s parents exactly when `p` is among `q`'s children |

## Left out

- Parsing is left out, along with the choice of format by file extension (`rdflib.util.guess_format`). A location is modelled as an already parsed graph together with the subject chosen by `[0]` among its `owl:Ontology` subjects. Which subject rdflib lists first is not modelled.
- Owl.Ontology.constructor accepts a parsed graph that mentions the `BNode` class (`BNodeClass`). rdflib's `Graph.add` rejects anything that is not a node, so no real document produces one. No lemma depends on this case.
- `BNode()` creates a fresh blank node. Here it is a parameter of the constructor.
- Owl.Ontology.constructor requires what the source needs in order not to crash:
  - a location that declares an ontology (otherwise `[0]` raises IndexError);
  - no truthy `uri` without a location (otherwise `self.uri` is never set and line 22 raises AttributeError);
  - no truthy `version_uri` without a `uri` (rdflib rejects `None` as a subject).
- Owl.Entity.constructor requires that a `definitions` argument is only given to a base-class entity. The subclass constructors do not accept one and raise TypeError.
- Results are modelled as sets, not as lists in rdflib's iteration order. This applies to the query results, the entity collections and the annotations.
  - Owl.Ontology.GetAnnotations returns a sequence without duplicates, but the order of that sequence is not modelled.
  - The five collections are sequences whose order is not modelled. `convert`'s result does not depend on that order:
    - it searches only for URIRefs and BNodes;
    - no such term equals the `BNode`-class default;
    - every other uri occurs at most once within a collection (`Loaded`).
- Literal datatypes and language tags are left out. A literal is its lexical form, and its Python truthiness is modelled as non-emptiness. rdflib decides a Literal's truthiness by its typed value (`Literal("0", datatype=xsd:integer)` is falsy). That is left out along with datatypes. It matters only for `if version_uri:` and `if not uri:` given literal values.
- `Annotation` is neither defined nor imported in ontology.py or entities.py, so as written `get_annotations` raises NameError as soon as the entity has a predicate declared `owl:AnnotationProperty`. The model replaces that failure with a record holding the `source`, `prop` and `target` values the code passes.
- `get_triples`, `get_super_classes`, `get_sub_classes`, `get_super_properties`, `get_sub_properties` and `get_individual_type` are called by entities.py but not defined in owllib. Each is given the meaning its caller's docstring describes, over the triple set. As written, `sync_from_ontology` never completes:
  - Without an ontology it raises ValueError. For a base `Entity` or `Property`, `get_annotations` raises AttributeError on `None.uri`. For an entity with a predicate declared `owl:AnnotationProperty`, it raises NameError at `Annotation`. In these three cases nothing has been overwritten yet.
  - Otherwise it gets past `get_annotations` and raises AttributeError at `get_triples`, after overwriting the annotations, labels, comments and definitions.

  Owl.Entity.SyncFromOntology models the intended behaviour instead. The first two failures are kept and leave the entity unchanged. In every other case it completes and also sets the triples, parents and children.
- `sync_to_ontology` calls `sync_entity_to_graph`, which is not defined anywhere, so it is not modelled.
- The `urllib` import is unused. `__init__.py` and `test.py` are not part of this model.
- Import closure, merging of imported graphs, and the error kinds for unsupported formats, import cycles and unloaded ontologies are not present in the code and are not modelled.
- An unresolvable identifier is not a separate error: the code returns nothing.
- Python's `None` passed to `convert` is not modelled. It falls through and gives nothing, which is what `convert` of nothing gives again.
- Exceptions are modelled as error values: ValueError (not found / no ontology), AttributeError, NotImplementedError. Their messages are left out.
