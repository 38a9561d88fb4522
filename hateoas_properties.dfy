/**
 * Properties of the HATEOAS rewriter: what an error names, idempotence on bodies whose links are
 * already Links (and how a rule returning Link[] breaks it), that the rewrite is determined by its
 * input, and the scenarios of tests/unit/hateoas.spec.ts.
 */
module HateoasProperties {
  import opened Wrappers
  import opened Hateoas

  /** Every rule returns a single Link, never a Link[]. */
  ghost predicate SingleLinkRules(rules: Rules) {
    forall c, e :: c in rules ==> rules[c](e).OneLink?
  }

  lemma {:induction false} EntitiesNoFailure(rules: Rules, es: seq<(string, Value)>, n: nat)
    requires n <= |es|
    requires forall j :: 0 <= j < n ==> ProcessEntity(rules, es[j].1).Success?
    ensures EntitiesFailure(rules, es, n) == None
  {
    if n > 0 {
      EntitiesNoFailure(rules, es, n - 1);
    }
  }

  lemma {:induction false} EntriesNoFailure(rules: Rules, v: Value, n: nat)
    requires v.Obj? && n <= |v.entries|
    requires forall j :: 0 <= j < n ==> EntryFailure(rules, v.entries[j]) == None
    ensures EntriesFailure(rules, v, n) == None
  {
    if n > 0 {
      EntriesNoFailure(rules, v, n - 1);
    }
  }

  /** A rewritten `_links` container holds only Links, so a second pass leaves it as it is. */
  lemma LinksIdempotent(rules: Rules, l: Value, l': Value)
    requires LinkClass !in rules && SingleLinkRules(rules)
    requires LinksRewritten(rules, l, l')
    ensures LinksFailure(rules, l') == None && LinksRewritten(rules, l', l')
  {
    if l.Obj? {
      var es := l.entries;
      forall j | 0 <= j < |es|
        ensures ProcessEntity(rules, l'.entries[j].1) == Success(l'.entries[j].1)
      {
        var e := es[j].1;
        var c := RuleKey(e);
        if c in rules {
          assert rules[c](e).OneLink?;
          assert l'.entries[j].1 == LinkObject(rules[c](e).link);
        } else {
          assert l'.entries[j].1 == e;
        }
      }
      EntitiesNoFailure(rules, l'.entries, |es|);
    }
  }

  /**
   * Idempotence: when no rule is named "Link" and every rule yields one Link, parsing a parsed body
   * again raises nothing and changes nothing.
   */
  lemma {:induction false} RewriteIdempotent(rules: Rules, v: Value, w: Value)
    requires LinkClass !in rules && SingleLinkRules(rules)
    requires Rewritten(rules, v, w)
    ensures FirstFailure(rules, w) == None && Rewritten(rules, w, w)
    decreases v
  {
    if v.Obj? {
      var es := v.entries;
      forall i | 0 <= i < |es|
        ensures EntryFailure(rules, w.entries[i]) == None
        ensures EntryRewritten(rules, w.entries[i], w.entries[i].1)
      {
        assert es[i] in v.entries;
        var x, y := es[i].1, w.entries[i].1;
        if es[i].0 == LinksKey {
          LinksIdempotent(rules, x, y);
        } else if IsObjectTyped(x) {
          RewriteIdempotent(rules, x, y);
          assert IsObjectTyped(y);
        } else {
          assert y == x;
        }
      }
      EntriesNoFailure(rules, w, |es|);
    }
  }

  /** A `_links` container a parse leaves as it is: an object of Links only, or a falsy or non-object scalar. */
  ghost predicate LinksOnlyContainer(l: Value) {
    match l
    case Obj(_, es) => forall j :: 0 <= j < |es| ==> RuleKey(es[j].1) == LinkClass
    case Bool(_) => true
    case Num(_) => true
    case Str(s) => s == ""
    case Undefined => false
    case Null => false
  }

  /** A body every `_links` container of which, wherever it sits, is a LinksOnlyContainer. */
  ghost predicate LinksOnly(v: Value)
    decreases v
  {
    v.Obj? ==> forall i :: 0 <= i < |v.entries| ==> EntryLinksOnly(v.entries[i])
  }

  ghost predicate EntryLinksOnly(e: (string, Value))
    decreases e
  {
    if e.0 == LinksKey then LinksOnlyContainer(e.1)
    else IsObjectTyped(e.1) ==> LinksOnly(e.1)
  }

  /**
   * Pass-through over all bodies: with no rule named "Link", a body whose `_links` hold only Links
   * parses without error and comes back unchanged.
   */
  lemma {:induction false} LinksOnlyFixpoint(rules: Rules, v: Value)
    requires LinkClass !in rules && LinksOnly(v)
    ensures FirstFailure(rules, v) == None && Rewritten(rules, v, v)
    decreases v
  {
    if v.Obj? {
      var es := v.entries;
      forall i | 0 <= i < |es|
        ensures EntryFailure(rules, es[i]) == None
        ensures EntryRewritten(rules, es[i], es[i].1)
      {
        assert es[i] in v.entries;
        var x := es[i].1;
        assert EntryLinksOnly(es[i]);
        if es[i].0 == LinksKey {
          if x.Obj? {
            forall j | 0 <= j < |x.entries|
              ensures ProcessEntity(rules, x.entries[j].1) == Success(x.entries[j].1)
            {
              assert RuleKey(x.entries[j].1) == LinkClass;
            }
            EntitiesNoFailure(rules, x.entries, |x.entries|);
          }
        } else if IsObjectTyped(x) {
          LinksOnlyFixpoint(rules, x);
        }
      }
      EntriesNoFailure(rules, v, |es|);
    }
  }

  /** The rewrite is determined by its input: the relation has at most one result. */
  lemma {:induction false} RewrittenDeterministic(rules: Rules, v: Value, w1: Value, w2: Value)
    requires Rewritten(rules, v, w1) && Rewritten(rules, v, w2)
    ensures w1 == w2
    decreases v
  {
    if v.Obj? {
      var es := v.entries;
      forall i | 0 <= i < |es|
        ensures w1.entries[i] == w2.entries[i]
      {
        assert es[i] in v.entries;
        var x := es[i].1;
        if es[i].0 == LinksKey {
          if x.Obj? {
            var a, b := w1.entries[i].1, w2.entries[i].1;
            forall j | 0 <= j < |x.entries|
              ensures a.entries[j] == b.entries[j]
            {
              assert ProcessEntity(rules, x.entries[j].1) == Success(a.entries[j].1);
            }
            assert a.entries == b.entries;
          }
        } else if IsObjectTyped(x) {
          RewrittenDeterministic(rules, x, w1.entries[i].1, w2.entries[i].1);
        }
      }
      assert w1.entries == w2.entries;
    }
  }

  /** An entity that fails names its own class, which has no rule and is not Link. */
  lemma ProcessEntityError(rules: Rules, e: Value)
    requires ProcessEntity(rules, e).Failure?
    ensures ProcessEntity(rules, e).error == InternalServerError(RuleKey(e))
    ensures RuleKey(e) !in rules && RuleKey(e) != LinkClass
  {
  }

  /** With no rule named "Link", a Link passes through unchanged and an entity with a rule becomes the rule's output. */
  lemma ProcessEntityPassThrough(rules: Rules, e: Value)
    requires LinkClass !in rules
    ensures RuleKey(e) == LinkClass ==> ProcessEntity(rules, e) == Success(e)
    ensures RuleKey(e) in rules ==> ProcessEntity(rules, e) == Success(OutputValue(rules[RuleKey(e)](e)))
  {
  }

  /** Whatever error parsing a body raises names a class with no rule, or is a TypeError. */
  lemma {:induction false} FailureNamesUnruledClass(rules: Rules, v: Value, c: string)
    requires FirstFailure(rules, v) == Some(InternalServerError(c))
    ensures c !in rules && c != LinkClass
    decreases v, 1, 0
  {
    EntriesNamesUnruledClass(rules, v, |v.entries|, c);
  }

  lemma {:induction false} EntriesNamesUnruledClass(rules: Rules, v: Value, n: nat, c: string)
    requires v.Obj? && n <= |v.entries|
    requires EntriesFailure(rules, v, n) == Some(InternalServerError(c))
    ensures c !in rules && c != LinkClass
    decreases v, 0, n
  {
    if EntriesFailure(rules, v, n - 1).Some? {
      EntriesNamesUnruledClass(rules, v, n - 1, c);
    } else {
      var e := v.entries[n - 1];
      assert e in v.entries;
      if e.0 == LinksKey {
        var l := e.1;
        if l.Obj? {
          LinksEntitiesNameUnruledClass(rules, l.entries, |l.entries|, c);
        } else {
          assert l.Str?;
          ProcessEntityError(rules, Str([l.s[0]]));
        }
      } else {
        FailureNamesUnruledClass(rules, e.1, c);
      }
    }
  }

  lemma {:induction false} LinksEntitiesNameUnruledClass(rules: Rules, es: seq<(string, Value)>, n: nat, c: string)
    requires n <= |es|
    requires EntitiesFailure(rules, es, n) == Some(InternalServerError(c))
    ensures c !in rules && c != LinkClass
  {
    if EntitiesFailure(rules, es, n - 1).Some? {
      LinksEntitiesNameUnruledClass(rules, es, n - 1, c);
    } else {
      ProcessEntityError(rules, es[n - 1].1);
    }
  }

  // ---------------------------------------------------------------------------------------------
  // The scenarios of tests/unit/hateoas.spec.ts, with the request fixed to host "testdomain".

  /** The value of the first entry named k of an object, or undefined. */
  function Field(v: Value, k: string): Value {
    if v.Obj? then FieldIn(v.entries, k) else Undefined
  }

  function FieldIn(es: seq<(string, Value)>, k: string): Value {
    if es == [] then Undefined else if es[0].0 == k then es[0].1 else FieldIn(es[1..], k)
  }

  /** `${v}` for the values the tests interpolate. */
  function Text(v: Value): string {
    if v.Str? then v.s else "undefined"
  }

  /** The TestEntity rule of the tests: a GET link to /test/<id>. */
  function TestEntityRule(protocol: string, e: Value): RuleOutput {
    OneLink(Link(RuleKey(e), protocol + "://testdomain/test/" + Text(Field(e, "id")), "GET", None))
  }

  /** The SubTestEntity rule of the tests: a GET link to /subtest/<id> targeting the entity's action. */
  function SubTestEntityRule(protocol: string, e: Value): RuleOutput {
    OneLink(Link(RuleKey(e), protocol + "://testdomain/subtest/" + Text(Field(e, "id")), "GET",
                 Some(Text(Field(e, "action")))))
  }

  /** The two rules of the tests, for a request made with the given protocol. */
  function TestRules(protocol: string): Rules {
    map["TestEntity" := e => TestEntityRule(protocol, e), "SubTestEntity" := e => SubTestEntityRule(protocol, e)]
  }

  function Literal(entries: seq<(string, Value)>): Value {
    Obj(Some("Object"), entries)
  }

  function TestEntity(name: string, id: string): Value {
    Obj(Some("TestEntity"), [("name", Str(name)), ("id", Str(id))])
  }

  function SubTestEntity(name: string, id: string): Value {
    Obj(Some("SubTestEntity"), [("name", Str(name)), ("id", Str(id)), ("action", Str("something"))])
  }

  /** An object whose entries are each visited without error is rewritten entry by entry. */
  lemma ObjectRewritten(rules: Rules, v: Value, w: Value)
    requires v.Obj? && w.Obj? && w.cls == v.cls && |w.entries| == |v.entries|
    requires forall i :: 0 <= i < |v.entries| ==>
               && w.entries[i].0 == v.entries[i].0
               && EntryFailure(rules, v.entries[i]) == None
               && EntryRewritten(rules, v.entries[i], w.entries[i].1)
    ensures FirstFailure(rules, v) == None && Rewritten(rules, v, w)
  {
    EntriesNoFailure(rules, v, |v.entries|);
  }

  /** A `_links` container whose entities all resolve is rewritten entity by entity. */
  lemma LinksContainerRewritten(rules: Rules, l: Value, l': Value)
    requires l.Obj? && l'.Obj? && l'.cls == l.cls && |l'.entries| == |l.entries|
    requires forall j :: 0 <= j < |l.entries| ==>
               l'.entries[j].0 == l.entries[j].0 && ProcessEntity(rules, l.entries[j].1) == Success(l'.entries[j].1)
    ensures EntryFailure(rules, (LinksKey, l)) == None && EntryRewritten(rules, (LinksKey, l), l')
  {
    EntitiesNoFailure(rules, l.entries, |l.entries|);
  }

  /** An entry whose value is neither under `_links` nor object-typed is left alone. */
  lemma ScalarEntry(rules: Rules, e: (string, Value))
    requires e.0 != LinksKey && !IsObjectTyped(e.1)
    ensures EntryFailure(rules, e) == None && EntryRewritten(rules, e, e.1)
  {
  }

  /** The TestEntity rule on a TestEntity with the given id. */
  lemma TestEntityResolves(protocol: string, name: string, id: string, url: string)
    requires url == protocol + "://testdomain/test/" + id
    ensures ProcessEntity(TestRules(protocol), TestEntity(name, id))
         == Success(LinkObject(Link("TestEntity", url, "GET", None)))
  {
    var entity := TestEntity(name, id);
    assert entity.entries[1..] == [("id", Str(id))];
    assert entity.entries[0].0 != "id";
    assert FieldIn(entity.entries, "id") == FieldIn([("id", Str(id))], "id") == Str(id);
    assert RuleKey(entity) == "TestEntity";
  }

  /** The SubTestEntity rule on a SubTestEntity with the given id. */
  lemma SubTestEntityResolves(protocol: string, name: string, id: string, url: string)
    requires url == protocol + "://testdomain/subtest/" + id
    ensures ProcessEntity(TestRules(protocol), SubTestEntity(name, id))
         == Success(LinkObject(Link("SubTestEntity", url, "GET", Some("something"))))
  {
    var sub := SubTestEntity(name, id);
    assert sub.entries[1..] == [("id", Str(id)), ("action", Str("something"))];
    assert sub.entries[1..][1..] == [("action", Str("something"))];
    assert sub.entries[0].0 != "id" && sub.entries[0].0 != "action" && sub.entries[1].0 != "action";
    assert FieldIn(sub.entries, "id") == FieldIn(sub.entries[1..], "id") == Str(id);
    assert FieldIn(sub.entries, "action") == FieldIn(sub.entries[1..], "action")
        == FieldIn([("action", Str("something"))], "action") == Str("something");
    assert RuleKey(sub) == "SubTestEntity";
  }

  /** Lines 54-75: a TestEntity under `_links` becomes its Link; the other field is kept. */
  lemma OneLevelScenario()
    ensures var body := Literal([("test", Str("test")), ("_links", Literal([("test", TestEntity("link test", "124"))]))]);
            && FirstFailure(TestRules("http"), body) == None
            && Rewritten(TestRules("http"), body,
                 Literal([("test", Str("test")),
                          ("_links", Literal([("test", LinkObject(Link("TestEntity", "http://testdomain/test/124", "GET", None)))]))]))
  {
    var rules := TestRules("http");
    var link := LinkObject(Link("TestEntity", "http://testdomain/test/124", "GET", None));
    TestEntityResolves("http", "link test", "124", "http://testdomain/test/124");
    var links := Literal([("test", TestEntity("link test", "124"))]);
    var links' := Literal([("test", link)]);
    LinksContainerRewritten(rules, links, links');
    ScalarEntry(rules, ("test", Str("test")));
    ObjectRewritten(rules, Literal([("test", Str("test")), ("_links", links)]), Literal([("test", Str("test")), ("_links", links')]));
  }

  /** An object-typed entry outside `_links` is rewritten as the object itself is. */
  lemma ObjectEntry(rules: Rules, k: string, v: Value, w: Value)
    requires k != LinksKey && v.Obj? && FirstFailure(rules, v) == None && Rewritten(rules, v, w)
    ensures EntryFailure(rules, (k, v)) == None && EntryRewritten(rules, (k, v), w)
  {
  }

  /** Lines 54-75 and 100-138, outer `_links`: the TestEntity becomes its Link. */
  lemma TestEntityLinks()
    ensures var links := Literal([("test", TestEntity("link test", "124"))]);
            var links' := Literal([("test", LinkObject(Link("TestEntity", "http://testdomain/test/124", "GET", None)))]);
            EntryFailure(TestRules("http"), (LinksKey, links)) == None && EntryRewritten(TestRules("http"), (LinksKey, links), links')
  {
    TestEntityResolves("http", "link test", "124", "http://testdomain/test/124");
    LinksContainerRewritten(TestRules("http"), Literal([("test", TestEntity("link test", "124"))]),
      Literal([("test", LinkObject(Link("TestEntity", "http://testdomain/test/124", "GET", None)))]));
  }

  function NestedInner(): Value {
    Literal([("name", Str("subtest")), ("_links", Literal([("subtest", SubTestEntity("link subtest", "421"))]))])
  }

  function NestedInnerRewritten(): Value {
    Literal([("name", Str("subtest")),
             ("_links", Literal([("subtest", LinkObject(Link("SubTestEntity", "http://testdomain/subtest/421", "GET", Some("something"))))]))])
  }

  /** Lines 100-138, inner `_links`: the SubTestEntity becomes its Link. */
  lemma NestedInnerLinks()
    ensures var links := Literal([("subtest", SubTestEntity("link subtest", "421"))]);
            var links' := Literal([("subtest", LinkObject(Link("SubTestEntity", "http://testdomain/subtest/421", "GET", Some("something"))))]);
            EntryFailure(TestRules("http"), (LinksKey, links)) == None && EntryRewritten(TestRules("http"), (LinksKey, links), links')
  {
    SubTestEntityResolves("http", "link subtest", "421", "http://testdomain/subtest/421");
    LinksContainerRewritten(TestRules("http"), Literal([("subtest", SubTestEntity("link subtest", "421"))]),
      Literal([("subtest", LinkObject(Link("SubTestEntity", "http://testdomain/subtest/421", "GET", Some("something"))))]));
  }

  /** Lines 100-138, inner object: its own `_links` is rewritten. */
  lemma NestedInnerScenario()
    ensures FirstFailure(TestRules("http"), NestedInner()) == None
    ensures Rewritten(TestRules("http"), NestedInner(), NestedInnerRewritten())
  {
    NestedInnerLinks();
    ScalarEntry(TestRules("http"), ("name", Str("subtest")));
    ObjectRewritten(TestRules("http"), NestedInner(), NestedInnerRewritten());
  }

  /** Lines 100-138: a nested object gets its own `_links` rewritten, independently of the outer one. */
  lemma NestedScenario()
    ensures var body := Literal([("test", Str("test")), ("subTest", NestedInner()),
                                 ("_links", Literal([("test", TestEntity("link test", "124"))]))]);
            && FirstFailure(TestRules("http"), body) == None
            && Rewritten(TestRules("http"), body,
                 Literal([("test", Str("test")), ("subTest", NestedInnerRewritten()),
                          ("_links", Literal([("test", LinkObject(Link("TestEntity", "http://testdomain/test/124", "GET", None)))]))]))
  {
    var rules := TestRules("http");
    var links := Literal([("test", TestEntity("link test", "124"))]);
    var links' := Literal([("test", LinkObject(Link("TestEntity", "http://testdomain/test/124", "GET", None)))]);
    TestEntityLinks();
    NestedInnerScenario();
    ObjectEntry(rules, "subTest", NestedInner(), NestedInnerRewritten());
    ScalarEntry(rules, ("test", Str("test")));
    var body := Literal([("test", Str("test")), ("subTest", NestedInner()), ("_links", links)]);
    var body' := Literal([("test", Str("test")), ("subTest", NestedInnerRewritten()), ("_links", links')]);
    forall i | 0 <= i < |body.entries|
      ensures body'.entries[i].0 == body.entries[i].0
      ensures EntryFailure(rules, body.entries[i]) == None
      ensures EntryRewritten(rules, body.entries[i], body'.entries[i].1)
    {
      if i == 0 {
        assert body.entries[i] == ("test", Str("test"));
      } else if i == 1 {
        assert body.entries[i] == ("subTest", NestedInner()) && body'.entries[i].1 == NestedInnerRewritten();
      } else {
        assert body.entries[i] == ("_links", links) && body'.entries[i].1 == links';
      }
    }
    ObjectRewritten(rules, body, body');
  }

  /** Lines 140-165: a Link under `_links` passes through. */
  lemma LinkPassesThroughScenario()
    ensures var link := LinkObject(Link("test", "http://testdomain/test/124", "GET", None));
            var body := Literal([("test", Str("test")), ("_links", Literal([("test", link)]))]);
            FirstFailure(TestRules("http"), body) == None && Rewritten(TestRules("http"), body, body)
  {
    var rules := TestRules("http");
    var link := LinkObject(Link("test", "http://testdomain/test/124", "GET", None));
    assert RuleKey(link) == LinkClass && LinkClass !in rules;
    var links := Literal([("test", link)]);
    LinksContainerRewritten(rules, links, links);
    ScalarEntry(rules, ("test", Str("test")));
    var body := Literal([("test", Str("test")), ("_links", links)]);
    ObjectRewritten(rules, body, body);
  }

  /** Lines 167-179: a plain object under `_links` has class "Object", which has no rule. */
  lemma MissingRuleScenario()
    ensures var body := Literal([("test", Str("test")), ("_links", Literal([("test", Literal([]))]))]);
            FirstFailure(TestRules("http"), body) == Some(InternalServerError("Object"))
  {
    var rules := TestRules("http");
    assert "Object" !in rules;
    var links := Literal([("test", Literal([]))]);
    assert EntitiesFailure(rules, links.entries, 1) == Some(InternalServerError("Object"));
    var body := Literal([("test", Str("test")), ("_links", links)]);
    assert EntriesFailure(rules, body, 1) == None;
    assert EntriesFailure(rules, body, 2) == Some(InternalServerError("Object"));
  }

  /** Lines 181-224: the entries of a page's `elements` array are walked and their Links kept. */
  lemma PageScenario()
    ensures var link := LinkObject(Link("TestEntity", "https://testdomain/test/124", "GET", None));
            var element := Literal([("test", Str("test")), ("_links", Literal([("test", link)]))]);
            var page := Obj(Some("Page"), [("pages", Num(1)), ("nextPage", Num(1)), ("totalElements", Num(1)),
                                           ("currentPage", Num(1)), ("pageSize", Num(1)),
                                           ("elements", ArrayValue([element]))]);
            FirstFailure(TestRules("https"), page) == None && Rewritten(TestRules("https"), page, page)
  {
    var rules := TestRules("https");
    var link := LinkObject(Link("TestEntity", "https://testdomain/test/124", "GET", None));
    assert RuleKey(link) == LinkClass && LinkClass !in rules;
    var links := Literal([("test", link)]);
    LinksContainerRewritten(rules, links, links);
    ScalarEntry(rules, ("test", Str("test")));
    var element := Literal([("test", Str("test")), ("_links", links)]);
    ObjectRewritten(rules, element, element);
    var elements := ArrayValue([element]);
    assert elements.entries == [(IndexKey(0), element)];
    assert IndexKey(0) == "0";
    ObjectRewritten(rules, elements, elements);
    var page := Obj(Some("Page"), [("pages", Num(1)), ("nextPage", Num(1)), ("totalElements", Num(1)),
                                   ("currentPage", Num(1)), ("pageSize", Num(1)), ("elements", elements)]);
    assert EntryFailure(rules, ("elements", elements)) == None;
    ObjectRewritten(rules, page, page);
  }

  /** An entity whose own `_links` holds an object without a rule. */
  function EntityWithLinks(): Value {
    Obj(Some("TestEntity"), [("id", Str("7")), ("_links", Literal([("x", Literal([]))]))])
  }

  /** The TestEntity rule reads only the entity's id. */
  lemma EntityWithLinksResolves(url: string)
    requires url == "http" + "://testdomain/test/" + "7"
    ensures ProcessEntity(TestRules("http"), EntityWithLinks()) == Success(LinkObject(Link("TestEntity", url, "GET", None)))
  {
    var entity := EntityWithLinks();
    assert entity.entries[0].0 == "id";
    assert Field(entity, "id") == Str("7");
    assert RuleKey(entity) == "TestEntity";
  }

  /**
   * An entity under `_links` is handed to its rule as it is and never walked: an unresolvable
   * object inside the entity's own `_links` raises nothing.
   */
  lemma EntitiesAreNotWalked()
    ensures var body := Literal([("_links", Literal([("self", EntityWithLinks())]))]);
            && FirstFailure(TestRules("http"), body) == None
            && Rewritten(TestRules("http"), body,
                 Literal([("_links", Literal([("self", LinkObject(Link("TestEntity", "http://testdomain/test/7", "GET", None)))]))]))
  {
    var rules := TestRules("http");
    EntityWithLinksResolves("http://testdomain/test/7");
    var link := LinkObject(Link("TestEntity", "http://testdomain/test/7", "GET", None));
    var links := Literal([("self", EntityWithLinks())]);
    var links' := Literal([("self", link)]);
    LinksContainerRewritten(rules, links, links');
    ObjectRewritten(rules, Literal([("_links", links)]), Literal([("_links", links')]));
  }

  /**
   * Idempotence needs single-Link rules: a rule returning Link[] leaves an Array under `_links`,
   * and parsing the result again fails on class "Array".
   */
  lemma LinkArraysBreakIdempotence()
    ensures var rules: Rules := map["TestEntity" := (e: Value) => ManyLinks([Link("self", "/test", "GET", None)])];
            var body := Literal([("_links", Literal([("self", TestEntity("t", "1"))]))]);
            var once := Literal([("_links", Literal([("self", ArrayValue([LinkObject(Link("self", "/test", "GET", None))]))]))]);
            && FirstFailure(rules, body) == None
            && Rewritten(rules, body, once)
            && FirstFailure(rules, once) == Some(InternalServerError("Array"))
  {
    var rules: Rules := map["TestEntity" := (e: Value) => ManyLinks([Link("self", "/test", "GET", None)])];
    var ls := [Link("self", "/test", "GET", None)];
    var entity := TestEntity("t", "1");
    var arr := ArrayValue([LinkObject(Link("self", "/test", "GET", None))]);
    assert seq(|ls|, i requires 0 <= i < |ls| => LinkObject(ls[i])) == [LinkObject(Link("self", "/test", "GET", None))];
    assert RuleKey(entity) == "TestEntity";
    assert ProcessEntity(rules, entity) == Success(arr);
    var links := Literal([("self", entity)]);
    var links' := Literal([("self", arr)]);
    LinksContainerRewritten(rules, links, links');
    ObjectRewritten(rules, Literal([("_links", links)]), Literal([("_links", links')]));
    assert RuleKey(arr) == ArrayClass && ArrayClass !in rules;
    assert EntitiesFailure(rules, links'.entries, 1) == Some(InternalServerError("Array"));
    var once := Literal([("_links", links')]);
    assert EntriesFailure(rules, once, 1) == Some(InternalServerError("Array"));
  }
}
