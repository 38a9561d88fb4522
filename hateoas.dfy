/**
 * The HATEOAS link rewriter of src/communication/server/Hateoas.ts.
 *
 * A response body is a JSON-like value. Every object carries the name of its class
 * (`value.constructor.name`): "Object" for a literal, "Array" for an array, "Link" for a link,
 * the class name for an entity, and None for an object without a prototype. An array is an
 * object whose keys are its indices, exactly as `Object.keys` presents it to the parser.
 *
 * The parser walks the body: the value under a `_links` key is a container of entities, and each
 * entity is replaced by the output of the rule registered for its class; every other value whose
 * `typeof` is "object" is walked in turn.
 */
module Hateoas {
  import opened Wrappers
  import opened JsSemantics

  datatype Link = Link(rel: string, href: string, httpMethod: string, target: Option<string>)

  datatype Value =
    | Undefined
    | Null
    | Bool(b: bool)
    | Num(n: int)
    | Str(s: string)
    | Obj(cls: Option<string>, entries: seq<(string, Value)>)

  /** What a rule returns: a Link or a Link[]. */
  datatype RuleOutput = OneLink(link: Link) | ManyLinks(links: seq<Link>)

  /** Rules keyed by entity class name; the request and response a rule may use are fixed inside the rule. */
  type Rules = map<string, Value -> RuleOutput>

  datatype HateoasError =
    /** `InternalServerError` naming the class that has no rule. */
    | InternalServerError(entityClass: string)
    /** A JavaScript TypeError: `Object.keys` of null/undefined, or a write into a string. */
    | TypeError

  const LinksKey := "_links"
  const LinkClass := "Link"
  const ArrayClass := "Array"

  function ErrorMessage(e: HateoasError): string {
    match e
    case InternalServerError(c) => "The entity class " + c + " doesn't have a HateoasRule defined"
    case TypeError => "TypeError"
  }

  /** A Link instance as the parser sees it: an object of class Link with string fields. */
  function LinkObject(l: Link): Value {
    Obj(Some(LinkClass),
        [("rel", Str(l.rel)), ("href", Str(l.href)), ("method", Str(l.httpMethod))]
        + (if l.target.Some? then [("target", Str(l.target.value))] else []))
  }

  /** The decimal spelling of an array index, which is its key. */
  function IndexKey(n: nat): string {
    NatToString(n)
  }

  /** A JavaScript array of the given elements. */
  function ArrayValue(items: seq<Value>): (v: Value)
    ensures v.Obj? && v.cls == Some(ArrayClass) && |v.entries| == |items|
    ensures forall i :: 0 <= i < |items| ==> v.entries[i] == (IndexKey(i), items[i])
  {
    Obj(Some(ArrayClass), seq(|items|, i requires 0 <= i < |items| => (IndexKey(i), items[i])))
  }

  function OutputValue(o: RuleOutput): Value {
    match o
    case OneLink(l) => LinkObject(l)
    case ManyLinks(ls) => ArrayValue(seq(|ls|, i requires 0 <= i < |ls| => LinkObject(ls[i])))
  }

  /** JavaScript truthiness. */
  predicate Truthy(v: Value) {
    match v
    case Undefined => false
    case Null => false
    case Bool(b) => b
    case Num(n) => n != 0
    case Str(s) => s != ""
    case Obj(_, _) => true
  }

  /** `typeof v === 'object'`, which includes null. */
  predicate IsObjectTyped(v: Value) {
    v.Null? || v.Obj?
  }

  /** `v?.constructor?.name`. */
  function ClassName(v: Value): Option<string> {
    match v
    case Undefined => None
    case Null => None
    case Bool(_) => Some("Boolean")
    case Num(_) => Some("Number")
    case Str(_) => Some("String")
    case Obj(c, _) => c
  }

  /** The key `rules[entityClass]` reads: an undefined class name becomes "undefined". */
  function RuleKey(v: Value): string {
    ClassName(v).GetOr("undefined")
  }

  /** `processEntity`: the rule's output, the entity itself when it is a Link without a rule, else an error. */
  function ProcessEntity(rules: Rules, e: Value): (r: Result<Value, HateoasError>)
    ensures r.Failure? <==> RuleKey(e) !in rules && RuleKey(e) != LinkClass
    ensures r.Failure? ==> r.error == InternalServerError(RuleKey(e))
    ensures RuleKey(e) in rules ==> r == Success(OutputValue(rules[RuleKey(e)](e)))
    ensures RuleKey(e) == LinkClass && LinkClass !in rules ==> r == Success(e)
  {
    var c := RuleKey(e);
    if c !in rules && c != LinkClass then Failure(InternalServerError(c))
    else if c in rules then Success(OutputValue(rules[c](e)))
    else Success(e)
  }

  // ---------------------------------------------------------------------------------------------
  // Specification: what a successful rewrite produces, and which error an unsuccessful one raises.

  /** The container under `_links` after `parseBodyLinks` succeeded on it. */
  ghost predicate LinksRewritten(rules: Rules, l: Value, l': Value) {
    match l
    case Obj(c, es) =>
      && l'.Obj? && l'.cls == c && |l'.entries| == |es|
      && forall j :: 0 <= j < |es| ==>
           l'.entries[j].0 == es[j].0 && ProcessEntity(rules, es[j].1) == Success(l'.entries[j].1)
    case Bool(_) => l' == l
    case Num(_) => l' == l
    case Str(s) => s == "" && l' == l
    case Undefined => false
    case Null => false
  }

  /** One entry of an object after the parser visited it. */
  ghost predicate EntryRewritten(rules: Rules, e: (string, Value), y: Value)
    decreases e
  {
    if e.0 == LinksKey then LinksRewritten(rules, e.1, y)
    else if IsObjectTyped(e.1) then Rewritten(rules, e.1, y)
    else y == e.1
  }

  /**
   * `w` is what `parseLinks` leaves of `v`: falsy values and non-objects unchanged; an object keeps
   * its class and its keys in order, its `_links` entry is rewritten and every other object-typed
   * entry is walked.
   */
  ghost predicate Rewritten(rules: Rules, v: Value, w: Value)
    decreases v
  {
    match v
    case Obj(c, es) =>
      && w.Obj? && w.cls == c && |w.entries| == |es|
      && forall i :: 0 <= i < |es| ==> w.entries[i].0 == es[i].0 && EntryRewritten(rules, es[i], w.entries[i].1)
    case Undefined => w == v
    case Null => w == v
    case Bool(_) => w == v
    case Num(_) => w == v
    case Str(_) => w == v
  }

  /** The first error `parseBodyLinks` meets among the first n entities of an object. */
  function EntitiesFailure(rules: Rules, es: seq<(string, Value)>, n: nat): Option<HateoasError>
    requires n <= |es|
  {
    if n == 0 then None
    else match EntitiesFailure(rules, es, n - 1)
      case Some(e) => Some(e)
      case None =>
        match ProcessEntity(rules, es[n - 1].1)
        case Failure(e) => Some(e)
        case Success(_) => None
  }

  /** The error `parseBodyLinks(l)` raises, if any. */
  function LinksFailure(rules: Rules, l: Value): Option<HateoasError> {
    match l
    case Undefined => Some(TypeError)
    case Null => Some(TypeError)
    case Bool(_) => None
    case Num(_) => None
    case Str(s) =>
      if s == "" then None
      else (match ProcessEntity(rules, Str([s[0]]))
        case Failure(e) => Some(e)
        case Success(_) => Some(TypeError))
    case Obj(_, es) => EntitiesFailure(rules, es, |es|)
  }

  /** The error met while visiting one entry of an object, if any. */
  function EntryFailure(rules: Rules, e: (string, Value)): Option<HateoasError>
    decreases e, 2, 0
  {
    if e.0 == LinksKey then LinksFailure(rules, e.1)
    else if IsObjectTyped(e.1) then FirstFailure(rules, e.1)
    else None
  }

  /** The first error met while visiting the first n entries of object v. */
  function EntriesFailure(rules: Rules, v: Value, n: nat): Option<HateoasError>
    requires v.Obj? && n <= |v.entries|
    decreases v, 0, n
  {
    if n == 0 then None
    else match EntriesFailure(rules, v, n - 1)
      case Some(e) => Some(e)
      case None =>
        assert v.entries[n - 1] in v.entries;
        EntryFailure(rules, v.entries[n - 1])
  }

  /** The error `parseLinks(v)` raises, if any: the first one in key order, depth first. */
  function FirstFailure(rules: Rules, v: Value): Option<HateoasError>
    decreases v, 1, 0
  {
    match v
    case Obj(_, es) => EntriesFailure(rules, v, |es|)
    case Undefined => None
    case Null => None
    case Bool(_) => None
    case Num(_) => None
    case Str(_) => None
  }

  lemma {:induction false} EntitiesFailureSticks(rules: Rules, es: seq<(string, Value)>, n: nat, m: nat)
    requires n <= m <= |es|
    requires EntitiesFailure(rules, es, n).Some?
    ensures EntitiesFailure(rules, es, m) == EntitiesFailure(rules, es, n)
    decreases m
  {
    if m > n {
      EntitiesFailureSticks(rules, es, n, m - 1);
    }
  }

  lemma {:induction false} EntriesFailureSticks(rules: Rules, v: Value, n: nat, m: nat)
    requires v.Obj? && n <= m <= |v.entries|
    requires EntriesFailure(rules, v, n).Some?
    ensures EntriesFailure(rules, v, m) == EntriesFailure(rules, v, n)
    decreases m
  {
    if m > n {
      EntriesFailureSticks(rules, v, n, m - 1);
    }
  }

  // ---------------------------------------------------------------------------------------------
  // The parser, step by step as the source runs it.

  class HateoasParser {
    const rules: Rules

    constructor(rules: Rules)
      ensures this.rules == rules
    {
      this.rules := rules;
    }

    /** `parseBodyLinks`: each entry of the `_links` container, in key order, becomes `processEntity` of it. */
    method ParseBodyLinks(links: Value) returns (r: Result<Value, HateoasError>)
      ensures r.Failure? <==> LinksFailure(rules, links).Some?
      ensures r.Failure? ==> r.error == LinksFailure(rules, links).value
      ensures r.Success? ==> LinksRewritten(rules, links, r.value)
    {
      match links {
        case Undefined => return Failure(TypeError);
        case Null => return Failure(TypeError);
        case Bool(_) => return Success(links);
        case Num(_) => return Success(links);
        case Str(s) =>
          if s == "" {
            return Success(links);
          }
          var p := ProcessEntity(rules, Str([s[0]]));
          if p.Failure? {
            return Failure(p.error);
          }
          return Failure(TypeError);
        case Obj(c, es) =>
          var out := es;
          var i := 0;
          while i < |es|
            invariant 0 <= i <= |es| && |out| == |es|
            invariant forall j :: i <= j < |es| ==> out[j] == es[j]
            invariant forall j :: 0 <= j < i ==>
                        out[j].0 == es[j].0 && ProcessEntity(rules, es[j].1) == Success(out[j].1)
            invariant EntitiesFailure(rules, es, i) == None
          {
            var p := ProcessEntity(rules, out[i].1);
            if p.Failure? {
              EntitiesFailureSticks(rules, es, i + 1, |es|);
              return Failure(p.error);
            }
            out := out[i := (out[i].0, p.value)];
            i := i + 1;
          }
          return Success(Obj(c, out));
      }
    }

    /** `parseLinks`: falsy bodies are returned as they are; objects are walked key by key. */
    method ParseLinks(body: Value) returns (r: Result<Value, HateoasError>)
      ensures r.Failure? <==> FirstFailure(rules, body).Some?
      ensures r.Failure? ==> r.error == FirstFailure(rules, body).value
      ensures r.Success? ==> Rewritten(rules, body, r.value)
      decreases body
    {
      if !body.Obj? {
        return Success(body);
      }
      var es := body.entries;
      var out := es;
      var i := 0;
      while i < |es|
        invariant 0 <= i <= |es| && |out| == |es|
        invariant forall j :: i <= j < |es| ==> out[j] == es[j]
        invariant forall j :: 0 <= j < i ==> out[j].0 == es[j].0 && EntryRewritten(rules, es[j], out[j].1)
        invariant EntriesFailure(rules, body, i) == None
      {
        var key := es[i].0;
        var x := es[i].1;
        assert es[i] in body.entries;
        if key == LinksKey {
          var l := ParseBodyLinks(x);
          if l.Failure? {
            EntriesFailureSticks(rules, body, i + 1, |es|);
            return Failure(l.error);
          }
          out := out[i := (key, l.value)];
        } else if IsObjectTyped(x) {
          var sub := ParseLinks(x);
          if sub.Failure? {
            EntriesFailureSticks(rules, body, i + 1, |es|);
            return Failure(sub.error);
          }
          out := out[i := (key, sub.value)];
        }
        i := i + 1;
      }
      return Success(Obj(body.cls, out));
    }
  }
}
