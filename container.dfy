/**
 * An abstract dependency-injection container: the parts of Symfony's ContainerBuilder
 * that the migrations extension reads and changes. A service definition is reduced to
 * its class, its constructor arguments, its ordered method calls and its tags.
 */
module Container {
  import opened Wrappers
  import opened BundlePath

  /** An argument of a definition or of a method call. */
  datatype Value =
    | Null
    | Bool(b: bool)
    | Int(i: int)
    | Str(s: string)
    /** `new Reference($id)` */
    | Ref(id: string)
    /** `new ServiceClosureArgument(new Reference($id))` */
    | ServiceClosure(id: string)

  /** One key and value of an ordered PHP array of strings. */
  datatype Entry = Entry(key: string, value: string)

  datatype MethodCall = MethodCall(name: string, arguments: seq<Value>)

  datatype Tag = Tag(name: string, attributes: seq<Entry>)

  datatype Definition = Definition(className: Option<string>, arguments: seq<Value>, calls: seq<MethodCall>, tags: seq<Tag>)

  /** A container parameter, in the shapes this extension reads and writes. */
  datatype Param =
    | NullParam
    | TextParam(text: string)
    | Entries(entries: seq<Entry>)
    | BundleList(bundles: seq<Bundle>)

  /** A snapshot of the container: definitions, aliases and parameters by id. */
  datatype ContainerState = ContainerState(
    definitions: map<string, Definition>,
    aliases: map<string, string>,
    parameters: map<string, Param>)
  {
    /** `addMethodCall` on the definition `id`, once per call, in order. */
    function AddMethodCalls(id: string, calls: seq<MethodCall>): ContainerState
      requires id in definitions
    {
      this.(definitions := definitions[id := definitions[id].(calls := definitions[id].calls + calls)])
    }

    function AddArgument(id: string, v: Value): ContainerState
      requires id in definitions
    {
      this.(definitions := definitions[id := definitions[id].(arguments := definitions[id].arguments + [v])])
    }

    /** `addTag` on the definition `id`, once per tag, in order. */
    function AddTags(id: string, tags: seq<Tag>): ContainerState
      requires id in definitions
    {
      this.(definitions := definitions[id := definitions[id].(tags := definitions[id].tags + tags)])
    }

    function SetDefinition(id: string, d: Definition): ContainerState {
      this.(definitions := definitions[id := d])
    }

    function RemoveDefinition(id: string): ContainerState {
      this.(definitions := definitions - {id})
    }

    function SetAlias(alias: string, id: string): ContainerState {
      this.(aliases := aliases[alias := id])
    }

    function SetParameter(name: string, v: Param): ContainerState {
      this.(parameters := parameters[name := v])
    }
  }

  lemma AddNoCalls(s: ContainerState, id: string)
    requires id in s.definitions
    ensures s.AddMethodCalls(id, []) == s
  {
    assert s.definitions[id].calls + [] == s.definitions[id].calls;
  }

  lemma AddNoTags(s: ContainerState, id: string)
    requires id in s.definitions
    ensures s.AddTags(id, []) == s
  {
    assert s.definitions[id].tags + [] == s.definitions[id].tags;
  }

  /** Adding calls in two steps is adding them all at once. */
  lemma AddMethodCallsTwice(s: ContainerState, id: string, first: seq<MethodCall>, second: seq<MethodCall>)
    requires id in s.definitions
    ensures s.AddMethodCalls(id, first).AddMethodCalls(id, second) == s.AddMethodCalls(id, first + second)
  {
    assert s.definitions[id].calls + first + second == s.definitions[id].calls + (first + second);
  }

  lemma AddTagsTwice(s: ContainerState, id: string, first: seq<Tag>, second: seq<Tag>)
    requires id in s.definitions
    ensures s.AddTags(id, first).AddTags(id, second) == s.AddTags(id, first + second)
  {
    assert s.definitions[id].tags + first + second == s.definitions[id].tags + (first + second);
  }

  class ContainerBuilder {
    var definitions: map<string, Definition>
    var aliases: map<string, string>
    var parameters: map<string, Param>

    function State(): ContainerState
      reads this
    {
      ContainerState(definitions, aliases, parameters)
    }

    constructor (initial: ContainerState)
      ensures State() == initial
    {
      definitions, aliases, parameters := initial.definitions, initial.aliases, initial.parameters;
    }

    method AddMethodCall(id: string, call: MethodCall)
      requires id in definitions
      modifies this
      ensures State() == old(State()).AddMethodCalls(id, [call])
    {
      definitions := definitions[id := definitions[id].(calls := definitions[id].calls + [call])];
    }

    method AddArgument(id: string, v: Value)
      requires id in definitions
      modifies this
      ensures State() == old(State()).AddArgument(id, v)
    {
      definitions := definitions[id := definitions[id].(arguments := definitions[id].arguments + [v])];
    }

    method AddTag(id: string, tag: Tag)
      requires id in definitions
      modifies this
      ensures State() == old(State()).AddTags(id, [tag])
    {
      definitions := definitions[id := definitions[id].(tags := definitions[id].tags + [tag])];
    }

    method SetDefinition(id: string, d: Definition)
      modifies this
      ensures State() == old(State()).SetDefinition(id, d)
    {
      definitions := definitions[id := d];
    }

    method RemoveDefinition(id: string)
      modifies this
      ensures State() == old(State()).RemoveDefinition(id)
    {
      definitions := definitions - {id};
    }

    method SetAlias(alias: string, id: string)
      modifies this
      ensures State() == old(State()).SetAlias(alias, id)
    {
      aliases := aliases[alias := id];
    }

    method SetParameter(name: string, v: Param)
      modifies this
      ensures State() == old(State()).SetParameter(name, v)
    {
      parameters := parameters[name := v];
    }

    method HasParameter(name: string) returns (b: bool)
      ensures b <==> name in parameters
    {
      b := name in parameters;
    }

    method GetParameter(name: string) returns (p: Param)
      requires name in parameters
      ensures p == parameters[name]
    {
      p := parameters[name];
    }
  }
}
