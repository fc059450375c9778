/** Properties of the ontology model: how `convert` resolves identifiers, what the constructor
    adds to the graph, and how the hierarchy queries mirror each other. */
module OwlFacts {
  import opened Wrappers
  import opened Rdf
  import opened Owl

  /** Searching a concatenation finds what the first part holds, or else what the second holds. */
  lemma {:induction false} FirstMatchAppend(a: seq<Entity>, b: seq<Entity>, t: Term)
    ensures FirstMatch(a + b, t) == OrElse(FirstMatch(a, t), FirstMatch(b, t))
  {
    if a == [] {
      assert a + b == b;
    } else if a[0].uri == t {
      assert (a + b)[0] == a[0];
    } else {
      assert (a + b)[0] == a[0];
      assert (a + b)[1..] == a[1..] + b;
      FirstMatchAppend(a[1..], b, t);
    }
  }

  /** The collections `convert` searches, in the order it searches them. */
  function SearchOrder(o: Ontology): seq<Entity>
    reads o
  {
    o.classes + o.objectProperties + o.annotationProperties + o.objectProperties + o.individuals
  }

  /** For a URIRef or BNode present in the graph, `convert` returns the first entity with that
      uri over classes, object properties, annotation properties, object properties again and
      individuals, in that order, and nothing when none has it. */
  lemma ConvertSearchOrder(o: Ontology, t: Term)
    requires t.Named? || t.Anon?
    requires o.Exists(t)
    ensures o.Converted(TermRef(t)) == Ok(AsRef(FirstMatch(SearchOrder(o), t)))
  {
    var c, op, ap, i := o.classes, o.objectProperties, o.annotationProperties, o.individuals;
    FirstMatchAppend(c + op + ap + op, i, t);
    FirstMatchAppend(c + op + ap, op, t);
    FirstMatchAppend(c + op, ap, t);
    FirstMatchAppend(c, op, t);
  }

  /** A URIRef or BNode that occurs nowhere in the graph makes `convert` raise. */
  lemma ConvertAbsent(o: Ontology, t: Term)
    requires t.Named? || t.Anon?
    requires forall tr | tr in o.graph :: tr.subj != t && tr.pred != t && tr.obj != t
    ensures o.Converted(TermRef(t)) == Err(UriNotFound)
    ensures o.GetLabels(TermRef(t)) == Err(UriNotFound)
  {
  }

  /** Every entity of a loaded collection has the collection's kind. */
  lemma LoadedKind(es: seq<Entity>, subjects: set<Term>, kind: Kind, owner: Ontology, e: Entity)
    requires Loaded(es, subjects, kind, owner)
    requires e in es
    ensures e.kind == kind
  {
  }

  /** A collection loaded from `subjects` holds no entity whose uri is a node outside them. */
  lemma NoMatchOutside(es: seq<Entity>, subjects: set<Term>, kind: Kind, owner: Ontology, t: Term)
    requires Loaded(es, subjects, kind, owner)
    requires t !in subjects && t != BNodeClass
    ensures FirstMatch(es, t).None?
  {
    forall i | 0 <= i < |es| ensures es[i].uri != t {
      assert es[i].uri in EntityUris(subjects);
    }
  }

  /** A collection loaded from `subjects` holds an entity for each genuine subject. */
  lemma MatchInside(es: seq<Entity>, subjects: set<Term>, kind: Kind, owner: Ontology, t: Term)
    requires Loaded(es, subjects, kind, owner)
    requires t in subjects && Truthy(t)
    ensures FirstMatch(es, t).Some?
  {
    assert EntityUri(t) in EntityUris(subjects);
    var e :| e in es && e.uri == t;
  }

  /** Two collections loaded from the same subjects hold the same uris, so searching the second
      after the first never finds anything new: the annotation-property search of `convert`
      (fed by the object-property loader) can never succeed. */
  lemma SameSubjectsSameMatches(a: seq<Entity>, b: seq<Entity>, subjects: set<Term>, kind: Kind,
                                owner: Ontology, t: Term)
    requires Loaded(a, subjects, kind, owner) && Loaded(b, subjects, kind, owner)
    ensures FirstMatch(a, t).None? ==> FirstMatch(b, t).None?
  {
    if FirstMatch(b, t).Some? {
      var e := FirstMatch(b, t).value;
      assert t in EntitiesUris(b);
      var e' :| e' in a && e'.uri == t;
    }
  }

  /** What a URIRef or BNode resolves to, read off its `rdf:type` declarations: declared a class
      gives the class; otherwise an object property gives the object property; otherwise a named
      individual gives the individual; anything else (a data or annotation property, an undeclared
      node, an empty IRI) gives nothing. No term ever resolves to a DataProperty or
      AnnotationProperty entity. */
  lemma ConvertByDeclaration(o: Ontology, t: Term)
    requires o.Valid()
    requires t.Named? || t.Anon?
    requires o.Exists(t)
    ensures var r := o.Converted(TermRef(t));
            var declaredClass := t in Subjects(o.graph, RdfType, OwlClass);
            var declaredObjectProperty := t in Subjects(o.graph, RdfType, OwlObjectProperty);
            var declaredIndividual := t in Subjects(o.graph, RdfType, OwlNamedIndividual);
            && r.Ok?
            && (r.value.Some? <==>
                  Truthy(t) && (declaredClass || declaredObjectProperty || declaredIndividual))
            && (r.value.Some? ==> r.value.value.EntityRef? && r.value.value.entity.uri == t)
            && (r.value.Some? && declaredClass ==> r.value.value.entity.kind == Class)
            && (r.value.Some? && !declaredClass && declaredObjectProperty ==>
                  r.value.value.entity.kind == ObjectProperty)
            && (r.value.Some? && !declaredClass && !declaredObjectProperty ==>
                  r.value.value.entity.kind == Individual)
  {
    var g := o.graph;
    var sc, sop, si := Subjects(g, RdfType, OwlClass), Subjects(g, RdfType, OwlObjectProperty),
                       Subjects(g, RdfType, OwlNamedIndividual);
    var fc, fop, fap, fi := FirstMatch(o.classes, t), FirstMatch(o.objectProperties, t),
                            FirstMatch(o.annotationProperties, t), FirstMatch(o.individuals, t);
    SameSubjectsSameMatches(o.objectProperties, o.annotationProperties, sop, ObjectProperty, o, t);
    if Truthy(t) {
      if t in sc { MatchInside(o.classes, sc, Class, o, t); } else { NoMatchOutside(o.classes, sc, Class, o, t); }
      if t in sop {
        MatchInside(o.objectProperties, sop, ObjectProperty, o, t);
      } else {
        NoMatchOutside(o.objectProperties, sop, ObjectProperty, o, t);
      }
      if t in si { MatchInside(o.individuals, si, Individual, o, t); } else { NoMatchOutside(o.individuals, si, Individual, o, t); }
    } else {
      assert forall i :: 0 <= i < |o.classes| ==> o.classes[i].uri != t by {
        forall i | 0 <= i < |o.classes| ensures o.classes[i].uri != t {
          assert o.classes[i].uri in EntitiesUris(o.classes);
        }
      }
      assert forall i :: 0 <= i < |o.objectProperties| ==> o.objectProperties[i].uri != t by {
        forall i | 0 <= i < |o.objectProperties| ensures o.objectProperties[i].uri != t {
          assert o.objectProperties[i].uri in EntitiesUris(o.objectProperties);
        }
      }
      assert forall i :: 0 <= i < |o.individuals| ==> o.individuals[i].uri != t by {
        forall i | 0 <= i < |o.individuals| ensures o.individuals[i].uri != t {
          assert o.individuals[i].uri in EntitiesUris(o.individuals);
        }
      }
    }
    if fc.Some? { LoadedKind(o.classes, sc, Class, o, fc.value); }
    if fop.Some? { LoadedKind(o.objectProperties, sop, ObjectProperty, o, fop.value); }
    if fi.Some? { LoadedKind(o.individuals, si, Individual, o, fi.value); }
  }

  /** `convert` is idempotent: whatever it returns, it returns unchanged when given it again. */
  lemma ConvertIdempotent(o: Ontology, ref: Ref)
    requires o.Valid()
    ensures o.Converted(ref).Ok? && o.Converted(ref).value.Some? ==>
              o.Converted(o.Converted(ref).value.value) == o.Converted(ref)
  {
  }

  /** Querying an identifier's labels, comments or definitions gives what querying the entity it
      resolves to gives: the objects of its `rdfs:label`, `rdfs:comment` or `obo:IAO_0000115` triples. */
  lemma AttributesByIdentifierOrEntity(o: Ontology, t: Term, e: Entity)
    requires o.Valid()
    requires o.Converted(TermRef(t)) == Ok(Some(EntityRef(e)))
    ensures o.GetLabels(TermRef(t)) == o.GetLabels(EntityRef(e)) == Ok(Objects(o.graph, t, RdfsLabel))
    ensures o.GetComments(TermRef(t)) == o.GetComments(EntityRef(e)) == Ok(Objects(o.graph, t, RdfsComment))
    ensures o.GetDefinitions(TermRef(t)) == o.GetDefinitions(EntityRef(e)) ==
              Ok(Objects(o.graph, t, IaoDefinition))
  {
  }

  /** The attribute queries fail on a Literal (it has no `.uri`) and on a base-class entity
      (`convert` gives nothing), and never fail on an entity of the five kinds. */
  lemma AttributeQueryFailures(o: Ontology, ref: Ref)
    ensures ref.TermRef? && ref.term.Lit? ==> o.GetLabels(ref) == Err(NoUriAttribute)
    ensures ref.EntityRef? ==> (o.GetLabels(ref).Ok? <==> Convertible(ref.entity.kind))
    ensures ref.EntityRef? && !Convertible(ref.entity.kind) ==> o.GetComments(ref) == Err(NoUriAttribute)
  {
  }

  /** The five types an entity collection is loaded from. */
  predicate EntityType(typeIri: Term)
  {
    typeIri == OwlClass || typeIri == OwlNamedIndividual || typeIri == OwlObjectProperty ||
    typeIri == OwlAnnotationProperty || typeIri == OwlDatatypeProperty
  }

  /** The triples the constructor adds declare no entity, so the five collections of a new
      ontology are exactly the declarations of the parsed document. */
  lemma AdditionsDeclareNoEntities(base: Graph, self: Term, uri: Option<Term>, versionUri: Option<Term>,
                                   importUris: seq<Term>, typeIri: Term)
    requires versionUri.Some? && Truthy(versionUri.value) ==> uri.Some?
    requires EntityType(typeIri)
    ensures Subjects(base + Additions(self, uri, versionUri, importUris), RdfType, typeIri) ==
            Subjects(base, RdfType, typeIri)
  {
  }

  /** The constructor's import triples have the imported uri as subject and object; among the
      triples the constructor adds, the new ontology is the subject of an `owl:imports` triple
      only if it is one of its own imports. */
  lemma ImportsAreSelfLoops(self: Term, uri: Option<Term>, versionUri: Option<Term>, importUris: seq<Term>)
    requires versionUri.Some? && Truthy(versionUri.value) ==> uri.Some?
    ensures forall u :: u in importUris ==> Triple(u, OwlImports, u) in Additions(self, uri, versionUri, importUris)
    ensures Objects(Additions(self, uri, versionUri, importUris), self, OwlImports) ==
            (if self in importUris then {self} else {})
  {
  }

  /** The constructor adds exactly one `owl:versionIRI` triple when given a truthy version and none
      otherwise, and its subject is the `uri` argument: the ontology's own uri gets one only when
      it equals that argument. */
  lemma VersionTripleSubject(self: Term, uri: Option<Term>, versionUri: Option<Term>, importUris: seq<Term>)
    requires versionUri.Some? && Truthy(versionUri.value) ==> uri.Some?
    ensures forall s, o :: Triple(s, OwlVersionIri, o) in Additions(self, uri, versionUri, importUris) <==>
              versionUri.Some? && Truthy(versionUri.value) && s == uri.value && o == versionUri.value
  {
  }

  /** Hierarchy duality for classes: `b` is a parent of `a` exactly when `a` is a child of `b`. */
  lemma ClassHierarchyDual(o: Ontology, a: Entity, b: Entity)
    requires a.kind == Class && b.kind == Class
    requires a.ontology == o && b.ontology == o
    requires a in o.classes && b in o.classes
    ensures a.Parents().Ok? && b.Children().Ok?
    ensures b in a.Parents().value <==> a in b.Children().value
  {
  }

  /** Hierarchy duality for properties of any of the three kinds, along `rdfs:subPropertyOf`. */
  lemma PropertyHierarchyDual(o: Ontology, p: Entity, q: Entity)
    requires IsProperty(p.kind) && IsProperty(q.kind)
    requires p.ontology == o && q.ontology == o
    requires p in o.Properties() && q in o.Properties()
    ensures p.Parents().Ok? && q.Children().Ok?
    ensures q in p.Parents().value <==> p in q.Children().value
  {
  }
}
