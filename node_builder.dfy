/**
 * The node builder: a mutable accumulator with one setter per node field
 * and a `build` that checks the required fields in a fixed order before
 * making the node.
 */
module NodeBuilding {
  import opened Outcomes
  import opened NodeTypes
  import opened Nodes

  /** The builder's nine fields as a value; None is PHP's null (unset). */
  datatype Draft = Draft(
    attributes: map<string, string>,
    depth: Option<int>,
    language: Option<string>,
    localName: Option<string>,
    position: Option<int>,
    prefix: Option<string>,
    nodeType: Option<int>,
    uri: Option<string>,
    value: Option<string>)

  /** A new builder: no attributes, every other field null. */
  const Blank: Draft := Draft(map[], None, None, None, None, None, None, None, None)

  /** The draft a node would be built from: every field set as the node has it. */
  function Describe(n: Node): Draft {
    Draft(n.attributes, Some(n.depth), n.language, Some(n.localName), Some(n.position),
          n.prefix, Some(n.nodeType), n.uri, n.value)
  }

  /** True when the four fields build() requires are all set. */
  predicate Complete(d: Draft) {
    d.depth.Some? && d.localName.Some? && d.position.Some? && d.nodeType.Some?
  }

  /**
   * build() as written: depth, then local name, then position, then type;
   * the first unset one decides the error. Prefix and URI are not checked.
   * The node's fields are the draft's fields, taken by name.
   */
  function Built(d: Draft): (r: Result<Node>)
    ensures r.Success? <==> Complete(d)
    ensures d.depth.None? ==> r == Failure(MissingDepth)
    ensures d.depth.Some? && d.localName.None? ==> r == Failure(MissingLocalName)
    ensures d.depth.Some? && d.localName.Some? && d.position.None? ==> r == Failure(MissingPosition)
    ensures Complete(d.(nodeType := Some(0))) && d.nodeType.None? ==> r == Failure(MissingType)
    ensures r.Success? ==> Describe(r.value) == d
  {
    if d.depth.None? then Failure(MissingDepth)
    else if d.localName.None? then Failure(MissingLocalName)
    else if d.position.None? then Failure(MissingPosition)
    else if d.nodeType.None? then Failure(MissingType)
    else Success(Node(d.nodeType.value, d.localName.value, d.value, d.position.value,
                      d.depth.value, d.language, d.prefix, d.uri, d.attributes))
  }

  /** Every node can be rebuilt from its own fields. */
  lemma BuiltDescribeRoundTrip(n: Node)
    ensures Built(Describe(n)) == Success(n)
  {
  }

  /**
   * The interface documents two more failures that build() never raises:
   * a draft with a prefix and no URI is built without complaint.
   */
  lemma PrefixWithoutUriIsBuilt()
    ensures var d := Draft(map["a" := "alpha", "b" := "beta", "c" := "gamma", "d" := "delta"],
                           Some(3), Some("en"), Some("test"), Some(3), Some("t"),
                           Some(TypeElement), None, Some("delta"));
      Built(d).Success? && Built(d).value.prefix == Some("t") && Built(d).value.uri == None
  {
  }

  /**
   * build() as documented: after the four required fields, a URI without a
   * prefix fails with MissingPrefix and a prefix without a URI fails with
   * MissingURI.
   */
  function BuiltChecked(d: Draft): (r: Result<Node>)
    ensures r.Success? <==> Complete(d) && (d.prefix.Some? <==> d.uri.Some?)
    ensures r.Success? ==> (r.value.prefix.Some? <==> r.value.uri.Some?)
    ensures Complete(d) && d.uri.Some? && d.prefix.None? ==> r == Failure(MissingPrefix)
    ensures Complete(d) && d.prefix.Some? && d.uri.None? ==> r == Failure(MissingURI)
    ensures !Complete(d) || (d.prefix.Some? <==> d.uri.Some?) ==> r == Built(d)
  {
    var r := Built(d);
    if r.Failure? then r
    else if d.uri.Some? && d.prefix.None? then Failure(MissingPrefix)
    else if d.prefix.Some? && d.uri.None? then Failure(MissingURI)
    else r
  }

  /**
   * The builder object: nine private fields, each set by its own setter,
   * which returns the builder itself for chaining.
   */
  class NodeBuilder {
    var attributes: map<string, string>
    var depth: Option<int>
    var language: Option<string>
    var localName: Option<string>
    var position: Option<int>
    var prefix: Option<string>
    var nodeType: Option<int>
    var uri: Option<string>
    var value: Option<string>

    function Fields(): Draft
      reads this
    {
      Draft(attributes, depth, language, localName, position, prefix, nodeType, uri, value)
    }

    constructor ()
      ensures Fields() == Blank
    {
      attributes := map[];
      depth, language, localName, position := None, None, None, None;
      prefix, nodeType, uri, value := None, None, None, None;
    }

    method Build() returns (r: Result<Node>)
      ensures r == Built(Fields())
    {
      if depth.None? {
        return Failure(MissingDepth);
      }
      if localName.None? {
        return Failure(MissingLocalName);
      }
      if position.None? {
        return Failure(MissingPosition);
      }
      if nodeType.None? {
        return Failure(MissingType);
      }
      r := Success(Node(nodeType.value, localName.value, value, position.value,
                        depth.value, language, prefix, uri, attributes));
    }

    method SetAttribute(name: string, v: string) returns (self: NodeBuilder)
      modifies this
      ensures self == this
      ensures Fields() == old(Fields()).(attributes := old(attributes)[name := v])
    {
      attributes := attributes[name := v];
      self := this;
    }

    method SetAttributes(m: map<string, string>) returns (self: NodeBuilder)
      modifies this
      ensures self == this && Fields() == old(Fields()).(attributes := m)
    {
      attributes := m;
      self := this;
    }

    method SetDepth(d: Option<int>) returns (self: NodeBuilder)
      modifies this
      ensures self == this && Fields() == old(Fields()).(depth := d)
    {
      depth := d;
      self := this;
    }

    method SetLanguage(l: Option<string>) returns (self: NodeBuilder)
      modifies this
      ensures self == this && Fields() == old(Fields()).(language := l)
    {
      language := l;
      self := this;
    }

    method SetLocalName(n: Option<string>) returns (self: NodeBuilder)
      modifies this
      ensures self == this && Fields() == old(Fields()).(localName := n)
    {
      localName := n;
      self := this;
    }

    method SetPosition(p: Option<int>) returns (self: NodeBuilder)
      modifies this
      ensures self == this && Fields() == old(Fields()).(position := p)
    {
      position := p;
      self := this;
    }

    method SetPrefix(p: Option<string>) returns (self: NodeBuilder)
      modifies this
      ensures self == this && Fields() == old(Fields()).(prefix := p)
    {
      prefix := p;
      self := this;
    }

    method SetType(t: Option<int>) returns (self: NodeBuilder)
      modifies this
      ensures self == this && Fields() == old(Fields()).(nodeType := t)
    {
      nodeType := t;
      self := this;
    }

    method SetURI(u: Option<string>) returns (self: NodeBuilder)
      modifies this
      ensures self == this && Fields() == old(Fields()).(uri := u)
    {
      uri := u;
      self := this;
    }

    method SetValue(v: Option<string>) returns (self: NodeBuilder)
      modifies this
      ensures self == this && Fields() == old(Fields()).(value := v)
    {
      value := v;
      self := this;
    }
  }

  /**
   * The chain of the builder test: bulk attributes, then one more, then
   * every other field. The node carries the merged attribute map and every
   * field as set.
   */
  method BuildChained(m: map<string, string>, name: string, v: string) returns (r: Result<Node>)
    ensures r == Success(Node(TypeElement, "test", Some(v), 3, 3, Some("en"), Some("t"),
                              Some("urn:kevin.herrera.io:test"), m[name := v]))
  {
    var b := new NodeBuilder();
    b := b.SetAttributes(m);
    b := b.SetAttribute(name, v);
    b := b.SetDepth(Some(3));
    b := b.SetLanguage(Some("en"));
    b := b.SetLocalName(Some("test"));
    b := b.SetPosition(Some(3));
    b := b.SetPrefix(Some("t"));
    b := b.SetType(Some(TypeElement));
    b := b.SetURI(Some("urn:kevin.herrera.io:test"));
    b := b.SetValue(Some(v));
    r := b.Build();
  }

  /**
   * Setting a required field back to null makes build() fail exactly as if
   * it had never been set.
   */
  method ResetRequiredField(d: Draft, which: nat) returns (r: Result<Node>)
    requires which < 4
    requires Complete(d)
    ensures which == 0 ==> r == Failure(MissingDepth)
    ensures which == 1 ==> r == Failure(MissingLocalName)
    ensures which == 2 ==> r == Failure(MissingPosition)
    ensures which == 3 ==> r == Failure(MissingType)
  {
    var b := new NodeBuilder();
    b := b.SetAttributes(d.attributes);
    b := b.SetDepth(d.depth);
    b := b.SetLanguage(d.language);
    b := b.SetLocalName(d.localName);
    b := b.SetPosition(d.position);
    b := b.SetPrefix(d.prefix);
    b := b.SetType(d.nodeType);
    b := b.SetURI(d.uri);
    b := b.SetValue(d.value);
    if which == 0 {
      b := b.SetDepth(None);
    } else if which == 1 {
      b := b.SetLocalName(None);
    } else if which == 2 {
      b := b.SetPosition(None);
    } else {
      b := b.SetType(None);
    }
    r := b.Build();
  }
}
