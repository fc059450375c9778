/** The owllib object model: kinded entities (owllib/entities.py) and the Ontology that owns
    the triple graph and the five entity collections (owllib/ontology.py). Both live in one
    module because each file calls into the other. */
module Owl {
  import opened Wrappers
  import opened Rdf

  /** The class an entity was built from. `PlainEntity` and `PlainProperty` are the base
      classes `Entity` and `Property` instantiated directly. */
  datatype Kind =
    | PlainEntity
    | PlainProperty
    | Class
    | Individual
    | ObjectProperty
    | DataProperty
    | AnnotationProperty

  /** The kinds that `Ontology.convert` recognises by `isinstance` and hands back unchanged. */
  predicate Convertible(k: Kind)
  {
    k.Class? || k.Individual? || k.ObjectProperty? || k.AnnotationProperty? || k.DataProperty?
  }

  /** The kinds that inherit `Property._get_parents` / `Property._get_children`. */
  predicate IsProperty(k: Kind)
  {
    k.PlainProperty? || k.ObjectProperty? || k.DataProperty? || k.AnnotationProperty?
  }

  /** The uri `Entity.__init__` stores for a supplied uri: a falsy one becomes the BNode class. */
  function EntityUri(uri: Term): Term
  {
    if Truthy(uri) then uri else BNodeClass
  }

  function EntityUris(subjects: set<Term>): set<Term>
  {
    set s | s in subjects :: EntityUri(s)
  }

  /** What `convert` is given and what it returns: an owllib entity or an rdflib term. */
  datatype Ref = EntityRef(entity: Entity) | TermRef(term: Term)

  /** An annotation as `get_annotations` builds it; its source is the ontology (the code
      passes `self`, the Ontology, not the entity). */
  datatype Annotation = Annotation(source: Ontology, prop: Term, target: Term)

  /** A parsed ontology document: its triples and the subject it declares `rdf:type owl:Ontology`. */
  datatype Parsed = Parsed(graph: Graph, ontologyIri: Term)

  /** The uris of a collection of entities. */
  function EntitiesUris(es: seq<Entity>): set<Term>
  {
    set e | e in es :: e.uri
  }

  /** `es` holds exactly one entity of kind `kind`, owned by `owner`, per term of `subjects`:
      as many entities as subjects, their uris those `Entity.__init__` makes of the subjects,
      and no two entities sharing a genuine uri. */
  ghost predicate Loaded(es: seq<Entity>, subjects: set<Term>, kind: Kind, owner: Ontology)
  {
    && |es| == |subjects|
    && (forall e | e in es :: e.kind == kind && e.ontology == owner)
    && EntitiesUris(es) == EntityUris(subjects)
    && (forall i, j :: 0 <= i < j < |es| && es[i].uri != BNodeClass ==> es[i].uri != es[j].uri)
  }

  /** `[uri for uri in subjects]`: the members of a set, listed once each in some order. */
  method Enumerate(subjects: set<Term>) returns (xs: seq<Term>)
    ensures |xs| == |subjects|
    ensures forall x :: x in xs <==> x in subjects
    ensures forall i, j :: 0 <= i < j < |xs| ==> xs[i] != xs[j]
  {
    var pending := subjects;
    xs := [];
    while pending != {}
      invariant pending <= subjects
      invariant |xs| + |pending| == |subjects|
      invariant forall x :: x in xs <==> x in subjects - pending
      invariant forall i, j :: 0 <= i < j < |xs| ==> xs[i] != xs[j]
      decreases |pending|
    {
      var x :| x in pending;
      assert forall i :: 0 <= i < |xs| ==> xs[i] != x by {
        forall i | 0 <= i < |xs| ensures xs[i] != x {
          assert xs[i] in xs;
        }
      }
      xs := xs + [x];
      pending := pending - {x};
    }
  }

  /** Entities built one per listed subject, from a list naming every subject once, are `Loaded`. */
  lemma LoadedFromList(es: seq<Entity>, xs: seq<Term>, subjects: set<Term>, kind: Kind, owner: Ontology)
    requires |xs| == |subjects| && |es| == |xs|
    requires forall x :: x in xs <==> x in subjects
    requires forall i, j :: 0 <= i < j < |xs| ==> xs[i] != xs[j]
    requires forall j :: 0 <= j < |es| ==>
               es[j].kind == kind && es[j].ontology == owner && es[j].uri == EntityUri(xs[j])
    ensures Loaded(es, subjects, kind, owner)
  {
  }

  /** The first entity of `es` whose uri is `t`: one `for ... if entity == x.uri: return x` loop. */
  function FirstMatch(es: seq<Entity>, t: Term): (r: Option<Entity>)
    ensures r.None? <==> forall i :: 0 <= i < |es| ==> es[i].uri != t
    ensures r.Some? ==> exists i :: 0 <= i < |es| && es[i] == r.value && es[i].uri == t &&
                                  forall j :: 0 <= j < i ==> es[j].uri != t
  {
    if es == [] then None
    else if es[0].uri == t then Some(es[0])
    else
      var r := FirstMatch(es[1..], t);
      assert r.Some? ==> exists i :: 1 <= i < |es| && es[i] == r.value && es[i].uri == t &&
                                   forall j :: 0 <= j < i ==> es[j].uri != t by {
        if r.Some? {
          var k :| 0 <= k < |es| - 1 && es[1..][k] == r.value && es[1..][k].uri == t &&
                   forall j :: 0 <= j < k ==> es[1..][j].uri != t;
          assert forall j :: 0 <= j < k + 1 ==> es[j].uri != t by {
            forall j | 0 <= j < k + 1 ensures es[j].uri != t {
              if j > 0 { assert es[j] == es[1..][j - 1]; }
            }
          }
        }
      }
      r
  }

  /** The search loop of `convert`, run over one collection. */
  method Search(es: seq<Entity>, t: Term) returns (r: Option<Entity>)
    ensures r == FirstMatch(es, t)
  {
    var i := 0;
    while i < |es|
      invariant 0 <= i <= |es|
      invariant FirstMatch(es[i..], t) == FirstMatch(es, t)
    {
      if es[i].uri == t {
        return Some(es[i]);
      }
      assert es[i..][1..] == es[i + 1..];
      i := i + 1;
    }
    return None;
  }

  /** The first of two searches that finds something. */
  function OrElse(first: Option<Entity>, second: Option<Entity>): Option<Entity>
  {
    if first.Some? then first else second
  }

  function AsRef(found: Option<Entity>): Option<Ref>
  {
    if found.Some? then Some(EntityRef(found.value)) else None
  }

  class Entity {
    const kind: Kind
    const uri: Term
    const ontology: Ontology?
    var annotations: seq<Annotation>
    var labels: set<Term>
    var comments: set<Term>
    var definitions: set<Term>
    var triples: set<Triple>
    var parents: set<Entity>
    var children: set<Entity>

    /** `Entity.__init__` and the subclass constructors, which take no `definitions`. */
    constructor (kind: Kind, uri: Option<Term>, ontology: Ontology?, labels: Option<set<Term>>,
                 comments: Option<set<Term>>, definitions: Option<set<Term>>)
      requires !kind.PlainEntity? ==> definitions.None?
      ensures this.kind == kind && this.ontology == ontology
      ensures uri.Some? && Truthy(uri.value) ==> this.uri == uri.value
      ensures uri.None? || !Truthy(uri.value) ==> this.uri == BNodeClass
      ensures this.labels == (if labels.Some? then labels.value else {})
      ensures this.comments == (if comments.Some? then comments.value else {})
      ensures this.definitions == (if definitions.Some? then definitions.value else {})
      ensures annotations == [] && triples == {} && parents == {} && children == {}
    {
      this.kind := kind;
      this.uri := if uri.Some? then EntityUri(uri.value) else BNodeClass;
      this.ontology := ontology;
      annotations := [];
      this.labels := if labels.Some? && labels.value != {} then labels.value else {};
      this.comments := if comments.Some? && comments.value != {} then comments.value else {};
      this.definitions := if definitions.Some? && definitions.value != {} then definitions.value else {};
      triples := {};
      parents := {};
      children := {};
    }

    /** `is_named`: whether the uri is a URIRef (a blank node, or the BNode class default, is not). */
    function IsNamed(): (r: bool)
      ensures r <==> uri.Named?
      ensures uri.Anon? || uri == BNodeClass ==> !r
    {
      match uri
      case Named(_) => true
      case _ => false
    }

    /** `_get_parents`, dispatched on the kind: superclasses of a class, the rdf:type classes of
        an individual, superproperties of a property; the base class raises NotImplementedError. */
    function Parents(): (r: Result<set<Entity>>)
      reads ontology
      ensures r.Err? <==> kind.PlainEntity? || ontology == null
      ensures kind.PlainEntity? ==> r == Err(NotImplemented)
      ensures !kind.PlainEntity? && ontology == null ==> r == Err(NoAssociatedOntology)
      ensures r.Ok? && kind.Class? ==>
                && (forall c | c in r.value :: c in ontology.classes)
                && (forall c | c in ontology.classes ::
                      c in r.value <==> Triple(uri, RdfsSubClassOf, c.uri) in ontology.graph)
      ensures r.Ok? && kind.Individual? ==>
                && (forall c | c in r.value :: c in ontology.classes)
                && (forall c | c in ontology.classes ::
                      c in r.value <==> Triple(uri, RdfType, c.uri) in ontology.graph)
      ensures r.Ok? && IsProperty(kind) ==>
                && (forall p | p in r.value :: p in ontology.Properties())
                && (forall p | p in ontology.Properties() ::
                      p in r.value <==> Triple(uri, RdfsSubPropertyOf, p.uri) in ontology.graph)
    {
      if kind.PlainEntity? then Err(NotImplemented)
      else if ontology == null then Err(NoAssociatedOntology)
      else if kind.Class? then Ok(ontology.SuperClasses(this))
      else if kind.Individual? then Ok(ontology.IndividualTypes(this))
      else Ok(ontology.SuperProperties(this))
    }

    /** `_get_children`: subclasses of a class, subproperties of a property, and always the
        empty set for an individual, which does not look at its ontology at all. */
    function Children(): (r: Result<set<Entity>>)
      reads ontology
      ensures kind.Individual? ==> r == Ok({})
      ensures kind.PlainEntity? ==> r == Err(NotImplemented)
      ensures r.Err? <==> kind.PlainEntity? || (ontology == null && !kind.Individual?)
      ensures !kind.PlainEntity? && !kind.Individual? && ontology == null ==> r == Err(NoAssociatedOntology)
      ensures r.Ok? && kind.Class? ==>
                && (forall c | c in r.value :: c in ontology.classes)
                && (forall c | c in ontology.classes ::
                      c in r.value <==> Triple(c.uri, RdfsSubClassOf, uri) in ontology.graph)
      ensures r.Ok? && IsProperty(kind) ==>
                && (forall p | p in r.value :: p in ontology.Properties())
                && (forall p | p in ontology.Properties() ::
                      p in r.value <==> Triple(p.uri, RdfsSubPropertyOf, uri) in ontology.graph)
    {
      if kind.PlainEntity? then Err(NotImplemented)
      else if kind.Individual? then Ok({})
      else if ontology == null then Err(NoAssociatedOntology)
      else if kind.Class? then Ok(ontology.SubClasses(this))
      else Ok(ontology.SubProperties(this))
    }

    /** `sync_from_ontology`: replaces every derived attribute with what the ontology says now.
        Without an ontology it raises; for a base-class entity `convert` gives nothing and the
        first query fails on `.uri`. A failure leaves the entity as it was. */
    method SyncFromOntology() returns (r: Outcome)
      modifies this
      ensures ontology == null ==> r == Fail(NoAssociatedOntology)
      ensures ontology != null && !Convertible(kind) ==> r == Fail(NoUriAttribute)
      ensures r.Fail? ==> unchanged(this)
      ensures ontology != null && Convertible(kind) ==>
                && r == Pass
                && (forall a :: a in annotations <==> a in ontology.AnnotationsOf(uri))
                && (forall i, j :: 0 <= i < j < |annotations| ==> annotations[i] != annotations[j])
                && labels == Objects(ontology.graph, uri, RdfsLabel)
                && comments == Objects(ontology.graph, uri, RdfsComment)
                && definitions == Objects(ontology.graph, uri, IaoDefinition)
                && triples == ontology.TriplesOf(this)
                && parents == Parents().value
                && children == Children().value
    {
      if ontology == null {
        return Fail(NoAssociatedOntology);
      }
      var found := ontology.GetAnnotations(EntityRef(this));
      if found.Err? {
        return Fail(found.error);
      }
      annotations := found.value;
      labels := ontology.GetLabels(EntityRef(this)).value;
      comments := ontology.GetComments(EntityRef(this)).value;
      definitions := ontology.GetDefinitions(EntityRef(this)).value;
      triples := ontology.TriplesOf(this);
      parents := Parents().value;
      children := Children().value;
      return Pass;
    }
  }

  class Ontology {
    var graph: Graph
    var uri: Term
    var classes: seq<Entity>
    var individuals: seq<Entity>
    var objectProperties: seq<Entity>
    var annotationProperties: seq<Entity>
    var dataProperties: seq<Entity>

    /** What construction establishes: the ontology declares itself, and each collection holds
        one entity per declared subject. `annotationProperties` is loaded, like
        `objectProperties`, from `owl:ObjectProperty` and holds ObjectProperty entities. */
    ghost predicate Valid()
      reads this
    {
      && Triple(uri, RdfType, OwlOntology) in graph
      && Loaded(classes, Subjects(graph, RdfType, OwlClass), Class, this)
      && Loaded(individuals, Subjects(graph, RdfType, OwlNamedIndividual), Individual, this)
      && Loaded(objectProperties, Subjects(graph, RdfType, OwlObjectProperty), ObjectProperty, this)
      && Loaded(annotationProperties, Subjects(graph, RdfType, OwlObjectProperty), ObjectProperty, this)
      && Loaded(dataProperties, Subjects(graph, RdfType, OwlDatatypeProperty), DataProperty, this)
    }

    /** `Ontology.__init__`. Parsing the document is not modelled: `location` carries the parsed
        triples and the declared ontology subject. A `uri` given without a `location` leaves
        `self.uri` unset and a `version_uri` given without a `uri` makes rdflib reject a `None`
        subject; both are excluded. `freshNode` is the new `BNode()`. */
    constructor (location: Option<Parsed>, uri: Option<Term>, versionUri: Option<Term>,
                 imports: seq<Ontology>, freshNode: Term)
      requires location.Some? ==>
                 Triple(location.value.ontologyIri, RdfType, OwlOntology) in location.value.graph
      requires location.Some? || uri.None? || !Truthy(uri.value)
      requires versionUri.Some? && Truthy(versionUri.value) ==> uri.Some?
      requires freshNode.Anon?
      ensures this.uri == if location.Some? then location.value.ontologyIri else freshNode
      ensures graph == (if location.Some? then location.value.graph else {}) +
                       Additions(this.uri, uri, versionUri, old(ImportUris(imports)))
      ensures Valid()
    {
      var importUris := ImportUris(imports);
      graph := {};
      this.uri := freshNode;
      classes, individuals, objectProperties, annotationProperties, dataProperties := [], [], [], [], [];
      new;
      if location.Some? {
        graph := graph + location.value.graph;
        this.uri := location.value.ontologyIri;
      }
      if (uri.None? || !Truthy(uri.value)) && location.None? {
        this.uri := freshNode;
      }
      ghost var parsed := graph;
      assert parsed == if location.Some? then location.value.graph else {};
      AddDeclarations(uri, versionUri, importUris);
      LoadCollections();
    }

    /** Lines 22-31 of `Ontology.__init__`: declare the ontology, its version (under the `uri`
        argument) and each import (as its own subject). */
    method AddDeclarations(uri: Option<Term>, versionUri: Option<Term>, importUris: seq<Term>)
      requires versionUri.Some? && Truthy(versionUri.value) ==> uri.Some?
      modifies this`graph
      ensures graph == old(graph) + Additions(this.uri, uri, versionUri, importUris)
    {
      ghost var parsed := graph;
      graph := graph + {Triple(this.uri, RdfType, OwlOntology)};
      if versionUri.Some? && Truthy(versionUri.value) {
        graph := graph + {Triple(uri.value, OwlVersionIri, versionUri.value)};
      }
      for i := 0 to |importUris|
        invariant graph == parsed + {Triple(this.uri, RdfType, OwlOntology)} +
                           VersionTriples(uri, versionUri) + ImportTriples(importUris[..i])
      {
        graph := graph + {Triple(importUris[i], OwlImports, importUris[i])};
        assert importUris[..i + 1] == importUris[..i] + [importUris[i]];
      }
      assert importUris[..|importUris|] == importUris;
    }

    /** Lines 33-38 of `Ontology.__init__`: fill the five collections from the graph, with
        `annotation_properties` filled by the object-property loader and the individuals loaded twice. */
    method LoadCollections()
      requires Triple(uri, RdfType, OwlOntology) in graph
      modifies this`classes, this`individuals, this`objectProperties, this`annotationProperties,
               this`dataProperties
      ensures Valid()
    {
      var c := LoadClasses();
      var i := LoadIndividuals();
      var op := LoadObjectProperties();
      var ap := LoadObjectProperties();
      var dp := LoadDataProperties();
      i := LoadIndividuals();
      classes, individuals, objectProperties, annotationProperties, dataProperties := c, i, op, ap, dp;
    }

    /** The body of the `_load_*` helpers: list the subjects of `(s, rdf:type, typeIri)`, then
        append one entity of `kind` per listed subject. */
    method Load(typeIri: Term, kind: Kind) returns (es: seq<Entity>)
      ensures Loaded(es, Subjects(graph, RdfType, typeIri), kind, this)
    {
      var uris := Enumerate(Subjects(graph, RdfType, typeIri));
      es := [];
      for i := 0 to |uris|
        invariant |es| == i
        invariant forall j :: 0 <= j < i ==>
                    es[j].kind == kind && es[j].ontology == this && es[j].uri == EntityUri(uris[j])
      {
        var e := new Entity(kind, Some(uris[i]), this, None, None, None);
        es := es + [e];
      }
      LoadedFromList(es, uris, Subjects(graph, RdfType, typeIri), kind, this);
    }

    method LoadClasses() returns (es: seq<Entity>)
      ensures Loaded(es, Subjects(graph, RdfType, OwlClass), Class, this)
    {
      es := Load(OwlClass, Class);
    }

    method LoadIndividuals() returns (es: seq<Entity>)
      ensures Loaded(es, Subjects(graph, RdfType, OwlNamedIndividual), Individual, this)
    {
      es := Load(OwlNamedIndividual, Individual);
    }

    method LoadObjectProperties() returns (es: seq<Entity>)
      ensures Loaded(es, Subjects(graph, RdfType, OwlObjectProperty), ObjectProperty, this)
    {
      es := Load(OwlObjectProperty, ObjectProperty);
    }

    method LoadAnnotationProperties() returns (es: seq<Entity>)
      ensures Loaded(es, Subjects(graph, RdfType, OwlAnnotationProperty), AnnotationProperty, this)
    {
      es := Load(OwlAnnotationProperty, AnnotationProperty);
    }

    method LoadDataProperties() returns (es: seq<Entity>)
      ensures Loaded(es, Subjects(graph, RdfType, OwlDatatypeProperty), DataProperty, this)
    {
      es := Load(OwlDatatypeProperty, DataProperty);
    }

    /** `exists`: whether `t` occurs anywhere in the graph. */
    function Exists(t: Term): (r: bool)
      reads this
      ensures r <==> exists tr :: tr in graph && (tr.subj == t || tr.pred == t || tr.obj == t)
    {
      t in Nodes(graph)
    }

    /** What `convert` returns: entities of the five kinds and literals unchanged; a URIRef or
        BNode absent from the graph raises; a present one is looked up in classes, object
        properties, annotation properties, object properties again and individuals (data
        properties are never searched); anything else, or no match, gives nothing. */
    function Converted(ref: Ref): (r: Result<Option<Ref>>)
      reads this
      ensures r.Err? ==> r == Err(UriNotFound)
      ensures ref.TermRef? && (ref.term.Named? || ref.term.Anon?) ==>
                (r.Err? <==> !Exists(ref.term))
      ensures ref.EntityRef? ==> r == (if Convertible(ref.entity.kind) then Ok(Some(ref)) else Ok(None))
      ensures ref.TermRef? && ref.term.Lit? ==> r == Ok(Some(ref))
      ensures ref.TermRef? && r.Ok? && r.value.Some? && !ref.term.Lit? ==>
                r.value.value.EntityRef? && r.value.value.entity.uri == ref.term
    {
      match ref
      case EntityRef(e) => if Convertible(e.kind) then Ok(Some(ref)) else Ok(None)
      case TermRef(t) =>
        if t.Lit? then Ok(Some(ref))
        else if !(t.Named? || t.Anon?) then Ok(None)
        else if !Exists(t) then Err(UriNotFound)
        else Ok(AsRef(
          OrElse(FirstMatch(classes, t),
          OrElse(FirstMatch(objectProperties, t),
          OrElse(FirstMatch(annotationProperties, t),
          OrElse(FirstMatch(objectProperties, t),
                 FirstMatch(individuals, t)))))))
    }

    /** `convert`, as the code runs it: an isinstance chain, then search loops in order. */
    method Convert(ref: Ref) returns (r: Result<Option<Ref>>)
      ensures r == Converted(ref)
    {
      match ref {
        case EntityRef(e) =>
          if Convertible(e.kind) {
            return Ok(Some(ref));
          }
          return Ok(None);
        case TermRef(t) =>
          if t.Lit? {
            return Ok(Some(ref));
          }
          if t.Named? || t.Anon? {
            if !Exists(t) {
              return Err(UriNotFound);
            }
            var found := Search(classes, t);
            if found.None? {
              found := Search(objectProperties, t);
            }
            if found.None? {
              found := Search(annotationProperties, t);
            }
            if found.None? {
              found := Search(objectProperties, t);
            }
            if found.None? {
              found := Search(individuals, t);
            }
            return Ok(AsRef(found));
          }
          return Ok(None);
      }
    }

    /** The entity whose `.uri` the attribute queries read after `convert`: reading `.uri` of
        nothing, or of a Literal, raises AttributeError. */
    function EntityOf(ref: Ref): (r: Result<Entity>)
      reads this
      ensures r.Err? <==> Converted(ref).Err? || Converted(ref).value.None? ||
                          !Converted(ref).value.value.EntityRef?
      ensures r.Ok? ==> Converted(ref) == Ok(Some(EntityRef(r.value)))
    {
      match Converted(ref)
      case Err(e) => Err(e)
      case Ok(Some(EntityRef(e))) => Ok(e)
      case Ok(_) => Err(NoUriAttribute)
    }

    /** The annotations of subject `s`: one per (predicate, object) of `s` whose predicate is
        declared an `owl:AnnotationProperty`. */
    function AnnotationsOf(s: Term): set<Annotation>
      reads this
    {
      set tr | tr in graph && tr.subj == s && Triple(tr.pred, RdfType, OwlAnnotationProperty) in graph
             :: Annotation(this, tr.pred, tr.obj)
    }

    /** `get_annotations`. */
    method GetAnnotations(ref: Ref) returns (r: Result<seq<Annotation>>)
      ensures r.Err? <==> EntityOf(ref).Err?
      ensures r.Err? ==> r.error == EntityOf(ref).error
      ensures r.Ok? ==> forall a :: a in r.value <==>
                a.source == this && Triple(EntityOf(ref).value.uri, a.prop, a.target) in graph &&
                Triple(a.prop, RdfType, OwlAnnotationProperty) in graph
      ensures r.Ok? ==> forall i, j :: 0 <= i < j < |r.value| ==> r.value[i] != r.value[j]
    {
      var c := Convert(ref);
      if c.Err? {
        return Err(c.error);
      }
      if c.value.None? || !c.value.value.EntityRef? {
        return Err(NoUriAttribute);
      }
      var subject := c.value.value.entity.uri;
      var pending := PredicateObjects(graph, subject);
      var declared := Subjects(graph, RdfType, OwlAnnotationProperty);
      var found: seq<Annotation> := [];
      ghost var done: set<(Term, Term)> := {};
      while pending != {}
        invariant done + pending == PredicateObjects(graph, subject)
        invariant done !! pending
        invariant forall a :: a in found <==>
                    a.source == this && (a.prop, a.target) in done && a.prop in declared
        invariant forall i, j :: 0 <= i < j < |found| ==> found[i] != found[j]
        decreases |pending|
      {
        var po :| po in pending;
        if po.0 in declared {
          found := found + [Annotation(this, po.0, po.1)];
        }
        done := done + {po};
        pending := pending - {po};
      }
      return Ok(found);
    }

    /** The objects of `(entity.uri, p, ?)` after `convert`, shared by the three queries below. */
    function ObjectsOf(ref: Ref, p: Term): (r: Result<set<Term>>)
      reads this
      ensures r.Err? <==> EntityOf(ref).Err?
      ensures r.Err? ==> r.error == EntityOf(ref).error
      ensures r.Ok? ==> forall o :: o in r.value <==> Triple(EntityOf(ref).value.uri, p, o) in graph
    {
      match EntityOf(ref)
      case Err(e) => Err(e)
      case Ok(e) => Ok(Objects(graph, e.uri, p))
    }

    /** `get_labels`: the `rdfs:label` values of the converted entity. */
    function GetLabels(ref: Ref): (r: Result<set<Term>>)
      reads this
      ensures r.Err? <==> EntityOf(ref).Err?
      ensures r.Ok? ==> forall o :: o in r.value <==> Triple(EntityOf(ref).value.uri, RdfsLabel, o) in graph
    {
      ObjectsOf(ref, RdfsLabel)
    }

    /** `get_comments`: the `rdfs:comment` values of the converted entity. */
    function GetComments(ref: Ref): (r: Result<set<Term>>)
      reads this
      ensures r.Err? <==> EntityOf(ref).Err?
      ensures r.Ok? ==> forall o :: o in r.value <==> Triple(EntityOf(ref).value.uri, RdfsComment, o) in graph
    {
      ObjectsOf(ref, RdfsComment)
    }

    /** `get_definitions`: the `obo:IAO_0000115` values of the converted entity. */
    function GetDefinitions(ref: Ref): (r: Result<set<Term>>)
      reads this
      ensures r.Err? <==> EntityOf(ref).Err?
      ensures r.Ok? ==> forall o :: o in r.value <==> Triple(EntityOf(ref).value.uri, IaoDefinition, o) in graph
    {
      ObjectsOf(ref, IaoDefinition)
    }

    // The queries below are called by entities.py but not defined in owllib; each is
    // given the meaning its caller's docstring describes, over the triple set.

    /** `get_triples`: the triples about the entity. */
    function TriplesOf(e: Entity): set<Triple>
      reads this
    {
      set tr | tr in graph && tr.subj == e.uri
    }

    /** All three property collections. */
    function Properties(): seq<Entity>
      reads this
    {
      objectProperties + annotationProperties + dataProperties
    }

    /** `get_super_classes`: the classes `e` is an `rdfs:subClassOf`. */
    function SuperClasses(e: Entity): set<Entity>
      reads this
    {
      set c | c in classes && Triple(e.uri, RdfsSubClassOf, c.uri) in graph
    }

    /** `get_sub_classes`: the classes that are an `rdfs:subClassOf` `e`. */
    function SubClasses(e: Entity): set<Entity>
      reads this
    {
      set c | c in classes && Triple(c.uri, RdfsSubClassOf, e.uri) in graph
    }

    /** `get_super_properties`: the properties `e` is an `rdfs:subPropertyOf`. */
    function SuperProperties(e: Entity): set<Entity>
      reads this
    {
      set p | p in Properties() && Triple(e.uri, RdfsSubPropertyOf, p.uri) in graph
    }

    /** `get_sub_properties`: the properties that are an `rdfs:subPropertyOf` `e`. */
    function SubProperties(e: Entity): set<Entity>
      reads this
    {
      set p | p in Properties() && Triple(p.uri, RdfsSubPropertyOf, e.uri) in graph
    }

    /** `get_individual_type`: the classes `e` is an `rdf:type` of. */
    function IndividualTypes(e: Entity): set<Entity>
      reads this
    {
      set c | c in classes && Triple(e.uri, RdfType, c.uri) in graph
    }
  }

  /** `[an_import.uri for an_import in imports]`. */
  function ImportUris(imports: seq<Ontology>): seq<Term>
    reads imports
  {
    if imports == [] then [] else [imports[0].uri] + ImportUris(imports[1..])
  }

  /** The `(u, owl:imports, u)` triple the constructor adds for each import uri `u`. */
  function ImportTriples(importUris: seq<Term>): set<Triple>
  {
    set u | u in importUris :: Triple(u, OwlImports, u)
  }

  /** The version triple, whose subject is the `uri` argument rather than the ontology's own uri. */
  function VersionTriples(uri: Option<Term>, versionUri: Option<Term>): set<Triple>
    requires versionUri.Some? && Truthy(versionUri.value) ==> uri.Some?
  {
    if versionUri.Some? && Truthy(versionUri.value) then {Triple(uri.value, OwlVersionIri, versionUri.value)}
    else {}
  }

  /** Everything the constructor adds to the parsed graph. */
  function Additions(self: Term, uri: Option<Term>, versionUri: Option<Term>, importUris: seq<Term>): set<Triple>
    requires versionUri.Some? && Truthy(versionUri.value) ==> uri.Some?
  {
    {Triple(self, RdfType, OwlOntology)} + VersionTriples(uri, versionUri) + ImportTriples(importUris)
  }
}
