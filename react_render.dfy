/**
 * The entry point of lib/index.js: `reactRender(opts, cb)` looks up (or
 * creates and stores) a Component for the component-identifying options, and
 * chooses the props to render it with. The rendering itself belongs to the
 * external React library and is not part of this model.
 */
module ReactRender {
  import opened Wrappers
  import FirstMatch

  /** A React component class or module value, by identity. */
  datatype ComponentRef = ComponentRef(id: nat)

  /** A props object, by identity. */
  datatype Props = Props(id: nat)

  /** An exception thrown by `JSON.parse`. */
  datatype ParseError = ParseError(id: nat)

  /** `JSON.parse` on the serialized props: the host's parser is a parameter of the model. */
  type Parser = string -> Result<Props, ParseError>

  /** The options `reactRender` reads; `None` is a property the caller did not give. */
  datatype RenderOptions = RenderOptions(
    component: Option<ComponentRef>,
    path: Option<string>,
    noCache: Option<bool>,
    props: Option<Props>,
    serializedProps: Option<string>,
    toStaticMarkup: bool)

  /** `_.pick(opts, 'component', 'path', 'noCache')`: the part of the options a cached Component is keyed on. */
  datatype LookupKey = LookupKey(component: Option<ComponentRef>, path: Option<string>, noCache: Option<bool>)

  function Pick(opts: RenderOptions): (r: LookupKey)
    ensures r.component == opts.component && r.path == opts.path && r.noCache == opts.noCache
  {
    LookupKey(opts.component, opts.path, opts.noCache)
  }

  /** Two option sets select the same cached Component exactly when they agree on `component`, `path` and `noCache`. */
  lemma PickIgnoresProps(a: RenderOptions, b: RenderOptions)
    ensures Pick(a) == Pick(b) <==>
      a.component == b.component && a.path == b.path && a.noCache == b.noCache
  {
  }

  /** JavaScript truthiness of the picked `noCache` value. */
  predicate NoCache(key: LookupKey)
  {
    key.noCache == Some(true)
  }

  /** A Component instance as lib/index.js uses it: created from, and keyed by, the picked options. */
  class Component {
    const opts: LookupKey

    constructor (opts: LookupKey)
      ensures this.opts == opts
    {
      this.opts := opts;
    }
  }

  /** The search `components.find(opts)` performs: `_.isEqual(obj.opts, opts)`, oldest entry first. */
  function Lookup(cache: seq<Component>, key: LookupKey): (r: Option<Component>)
    ensures r.Some? ==> r.value.opts == key
    ensures r.Some? ==> exists i :: 0 <= i < |cache| && cache[i] == r.value &&
                                    forall j :: 0 <= j < i ==> cache[j].opts != key
    ensures r.None? <==> forall i :: 0 <= i < |cache| ==> cache[i].opts != key
  {
    FirstMatch.Find(cache, (c: Component) => c.opts == key)
  }

  /** Appending a Component keeps every earlier answer and answers a missed key with the new Component. */
  lemma LookupAfterAdd(cache: seq<Component>, c: Component, key: LookupKey)
    ensures Lookup(cache + [c], key) ==
      if Lookup(cache, key).Some? then Lookup(cache, key)
      else if c.opts == key then Some(c)
      else None
  {
    var p := (x: Component) => x.opts == key;
    FirstMatch.FirstIndexAppend(cache, c, p);
    var t := cache + [c];
    assert forall j :: 0 <= j < |cache| ==> t[j] == cache[j];
  }

  /** The `components` object of lib/index.js: `_cache` and the methods that change it. */
  class ComponentCache {
    var cache: seq<Component>

    constructor ()
      ensures cache == []
    {
      cache := [];
    }

    /** `find(opts)`. */
    function Find(key: LookupKey): (r: Option<Component>)
      reads this
      ensures r.Some? ==> exists i :: 0 <= i < |cache| && cache[i] == r.value && r.value.opts == key &&
                                      forall j :: 0 <= j < i ==> cache[j].opts != key
      ensures r.None? <==> forall i :: 0 <= i < |cache| ==> cache[i].opts != key
    {
      Lookup(cache, key)
    }

    /** `add(obj)`: push at the end. */
    method Add(c: Component)
      modifies this
      ensures cache == old(cache) + [c]
    {
      cache := cache + [c];
    }

    /** `clear()`: replace `_cache` by an empty list. */
    method Clear()
      modifies this
      ensures cache == []
      ensures forall key :: Find(key) == None
    {
      cache := [];
    }
  }

  /** The props `reactRender` renders with, and the parse error it reports to `cb`, if any. */
  datatype PropsChoice = PropsChoice(props: Option<Props>, reported: Option<ParseError>)

  /**
   * Lines 34-41: given props win; otherwise non-empty serialized props are
   * parsed and, when parsing succeeds, the parsed value is rendered; a parse
   * failure is reported while the props stay absent. Absent or empty
   * serialized props are never parsed.
   */
  function SelectProps(props: Option<Props>, serializedProps: Option<string>, parse: Parser): (r: PropsChoice)
    ensures props.Some? ==> r == PropsChoice(props, None)
    ensures r.props.Some? ==>
      (r.props == props || (serializedProps.Some? && parse(serializedProps.value) == Success(r.props.value)))
    ensures r.reported.Some? <==>
      props.None? && serializedProps.Some? && serializedProps.value != "" && parse(serializedProps.value).Failure?
    ensures r.reported.Some? ==> r.props.None? && parse(serializedProps.value) == Failure(r.reported.value)
    ensures props.None? && serializedProps.Some? && serializedProps.value != "" && parse(serializedProps.value).Success? ==>
      r == PropsChoice(Some(parse(serializedProps.value).value), None)
    ensures props.None? && (serializedProps.None? || serializedProps.value == "") ==> r == PropsChoice(None, None)
  {
    if props.None? && serializedProps.Some? && serializedProps.value != "" then
      match parse(serializedProps.value)
      case Success(p) => PropsChoice(Some(p), None)
      case Failure(e) => PropsChoice(None, Some(e))
    else PropsChoice(props, None)
  }

  /** When props are given, the serialized props and the parser are never consulted. */
  lemma GivenPropsIgnoreSerialized(props: Props, s1: Option<string>, s2: Option<string>, parse1: Parser, parse2: Parser)
    ensures SelectProps(Some(props), s1, parse1) == SelectProps(Some(props), s2, parse2)
  {
  }

  /**
   * `reactRender(opts, cb)` up to the call into React: the Component it renders
   * with, the props it passes, and the parse error it reports first, if any.
   */
  method Render(components: ComponentCache, opts: RenderOptions, parse: Parser)
    returns (component: Component, choice: PropsChoice)
    modifies components
    ensures component.opts == Pick(opts)
    ensures NoCache(Pick(opts)) ==> fresh(component) && components.cache == old(components.cache)
    ensures !NoCache(Pick(opts)) ==>
      match Lookup(old(components.cache), Pick(opts))
      case Some(c) => component == c && components.cache == old(components.cache)
      case None => fresh(component) && components.cache == old(components.cache) + [component]
    ensures choice == SelectProps(opts.props, opts.serializedProps, parse)
  {
    var key := Pick(opts);
    if NoCache(key) {
      component := new Component(key);
    } else {
      var found := components.Find(key);
      if found.Some? {
        component := found.value;
      } else {
        component := new Component(key);
        components.Add(component);
      }
    }
    choice := SelectProps(opts.props, opts.serializedProps, parse);
  }
}
