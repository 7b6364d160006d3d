/**
 * `TerraformStack`: the stack-id checks run by its constructor, the path-keyed
 * raw overrides (`addOverride`), the two memoising cross-stack registries and
 * the fold that assembles the document form in `toTerraform`.
 */
module TerraformStacks {
  import opened Wrappers
  import opened Errors
  import opened Values
  import opened ConstructTree
  import StackSynthesis
  import Strings

  // ---------------------------------------------------------------- stack-id checks

  /** The characters `throwIfIdIsGlobCharacter` rejects, in the order it tries them. */
  const GlobCharacters: seq<char> := ['*', '?', '[', ']', '{', '}', '!']

  /** The `forEach` over the glob characters from position `i` on: the first one found in `id` throws. */
  function GlobCheckFrom(id: string, i: nat): (r: Outcome<Error>)
    requires i <= |GlobCharacters|
    ensures r.Pass? <==> forall j :: i <= j < |GlobCharacters| ==> GlobCharacters[j] !in id
    ensures r.Fail? ==> exists j :: (i <= j < |GlobCharacters| && GlobCharacters[j] in id
                                      && (forall j' :: i <= j' < j ==> GlobCharacters[j'] !in id)
                                      && r.error == StackContainsDisallowedChar(id, GlobCharacters[j]))
    decreases |GlobCharacters| - i
  {
    if i == |GlobCharacters| then Pass
    else if GlobCharacters[i] in id then Fail(StackContainsDisallowedChar(id, GlobCharacters[i]))
    else GlobCheckFrom(id, i + 1)
  }

  /** `throwIfIdIsGlobCharacter(id)`. */
  function ThrowIfIdIsGlobCharacter(id: string): (r: Outcome<Error>)
    ensures r.Pass? <==> forall c :: c in GlobCharacters ==> c !in id
    ensures r.Fail? ==> exists j :: (0 <= j < |GlobCharacters| && GlobCharacters[j] in id
                                      && (forall j' :: 0 <= j' < j ==> GlobCharacters[j'] !in id)
                                      && r.error == StackContainsDisallowedChar(id, GlobCharacters[j]))
  {
    GlobCheckFrom(id, 0)
  }

  /** The characters the JavaScript regular-expression class `\s` matches. */
  predicate IsWhitespace(c: char)
  {
    c == '\t' || c == '\n' || c == '\U{B}' || c == '\U{C}' || c == '\r' || c == ' '
    || c == '\U{A0}' || c == '\U{1680}' || ('\U{2000}' <= c <= '\U{200A}')
    || c == '\U{2028}' || c == '\U{2029}' || c == '\U{202F}' || c == '\U{205F}'
    || c == '\U{3000}' || c == '\U{FEFF}'
  }

  /** `throwIfIdContainsWhitespace(id)`. */
  function ThrowIfIdContainsWhitespace(id: string): (r: Outcome<Error>)
    ensures r.Pass? <==> forall i :: 0 <= i < |id| ==> !IsWhitespace(id[i])
    ensures r.Fail? ==> r.error == StackIdContainsWhitespace(id)
  {
    if exists i :: 0 <= i < |id| && IsWhitespace(id[i]) then Fail(StackIdContainsWhitespace(id)) else Pass
  }

  /**
   * The two checks of the stack constructor, glob characters first: an id
   * with a glob character fails naming the first such character in list
   * order (whatever whitespace it holds); otherwise whitespace fails.
   */
  function ValidateStackId(id: string): (r: Outcome<Error>)
    ensures r.Pass? <==> (forall c :: c in GlobCharacters ==> c !in id) && (forall i :: 0 <= i < |id| ==> !IsWhitespace(id[i]))
    ensures (exists c :: c in GlobCharacters && c in id) ==>
      exists j :: (0 <= j < |GlobCharacters| && GlobCharacters[j] in id
                   && (forall j' :: 0 <= j' < j ==> GlobCharacters[j'] !in id)
                   && r == Fail(StackContainsDisallowedChar(id, GlobCharacters[j])))
    ensures (forall c :: c in GlobCharacters ==> c !in id) && (exists i :: 0 <= i < |id| && IsWhitespace(id[i])) ==>
      r == Fail(StackIdContainsWhitespace(id))
  {
    var glob := ThrowIfIdIsGlobCharacter(id);
    if glob.Fail? then glob else ThrowIfIdContainsWhitespace(id)
  }

  // ---------------------------------------------------------------- cross-stack values

  /** `ref(identifier, stack)`: a reference expression to `identifier`, made in the stack at `stackPath`. */
  datatype Reference = Reference(identifier: string, stackPath: string)

  /** A `TerraformOutput` created by `registerOutgoingCrossStackReference`. */
  datatype CrossStackOutput = CrossStackOutput(constructId: string, value: Reference, sensitive: bool)

  /**
   * What a producer's backend was asked for by `getRemoteStateDataSource`: the
   * consuming stack, the construct id and the producer's path. The data
   * source itself is built by the backend, which is not part of this model.
   */
  datatype RemoteState = RemoteState(consumerPath: string, constructId: string, producerPath: string)

  /** The output `registerOutgoingCrossStackReference(identifier)` creates in the stack at `stackPath`. */
  function OutgoingOutput(stackPath: string, identifier: string): (o: CrossStackOutput)
    ensures o.sensitive && o.value.identifier == identifier
    ensures |o.constructId| == |"cross-stack-output-"| + |identifier|
    ensures o.constructId[|"cross-stack-output-"|..] == identifier
  {
    CrossStackOutput("cross-stack-output-" + identifier, Reference(identifier, stackPath), true)
  }

  /** The data source `registerIncomingCrossStackReference` asks the producer's backend for. */
  function IncomingSource(consumerPath: string, producerPath: string): (r: RemoteState)
    ensures r.consumerPath == consumerPath && r.producerPath == producerPath
    ensures |r.constructId| == |"cross-stack-reference-input-"| + |producerPath|
    ensures r.constructId[|"cross-stack-reference-input-"|..] == producerPath
  {
    RemoteState(consumerPath, "cross-stack-reference-input-" + producerPath, producerPath)
  }

  /** `String(construct)`: its path, or "<root>" for the root's empty path. */
  function ConstructString(constructPath: string): (r: string)
    ensures constructPath != "" ==> r == constructPath
    ensures r != ""
  {
    if constructPath == "" then "<root>" else constructPath
  }

  predicate Distinct<T(==)>(s: seq<T>)
  {
    forall i, j :: 0 <= i < j < |s| ==> s[i] != s[j]
  }

  /** The metadata a stack starts from in `toTerraform`, before the elements' metadata is merged in. */
  function BaseMetadata(version: string, stackName: string, overrideKeys: seq<string>): (r: Value)
    ensures r.Obj?
    ensures r.fields.Keys == {"version", "stackName", "backend"} + (if |overrideKeys| > 0 then {"overrides"} else {})
    ensures r.fields["version"] == Str(version) && r.fields["stackName"] == Str(stackName)
    ensures r.fields["backend"] == Str("local")
    ensures |overrideKeys| > 0 ==> r.fields["overrides"] == Obj(map["stack" := Arr(Strs(overrideKeys))])
  {
    var base := map["version" := Str(version), "stackName" := Str(stackName), "backend" := Str("local")];
    if |overrideKeys| > 0 then Obj(base["overrides" := Obj(map["stack" := Arr(Strs(overrideKeys))])])
    else Obj(base)
  }

  /** Every element's value under `f`, resolved, in element order. */
  function ResolveEach(resolve: Value -> Value, f: Located -> Value, elements: seq<Located>): (r: seq<Value>)
    ensures |r| == |elements|
    ensures forall i :: 0 <= i < |elements| ==> r[i] == resolve(f(elements[i]))
  {
    seq(|elements|, i requires 0 <= i < |elements| => resolve(f(elements[i])))
  }

  /**
   * `elements.map((e) => resolve(this, e.toTerraform()))`: the resolved
   * fragments in element order, or the error of the first element whose
   * `toTerraform` fails.
   */
  function FragmentsOf(resolve: Value -> Value, fragmentOf: Located -> Result<Value, Error>, elements: seq<Located>)
    : (r: Result<seq<Value>, Error>)
    ensures r.Success? ==>
      |r.value| == |elements|
      && forall i :: 0 <= i < |elements| ==>
           fragmentOf(elements[i]).Success? && r.value[i] == resolve(fragmentOf(elements[i]).value)
    ensures r.Failure? ==>
      exists i :: 0 <= i < |elements| && fragmentOf(elements[i]) == Failure(r.error)
                  && forall j :: 0 <= j < i ==> fragmentOf(elements[j]).Success?
    decreases |elements|
  {
    if |elements| == 0 then Success([])
    else
      match fragmentOf(elements[0])
      case Failure(e) => Failure(e)
      case Success(v) =>
        match FragmentsOf(resolve, fragmentOf, elements[1..])
        case Failure(e) =>
          FirstFailureShifts(fragmentOf, elements, e);
          Failure(e)
        case Success(rest) => Success([resolve(v)] + rest)
  }

  /** A failure found after a successful first element is the first failure of the whole list. */
  lemma FirstFailureShifts(fragmentOf: Located -> Result<Value, Error>, elements: seq<Located>, e: Error)
    requires |elements| >= 1 && fragmentOf(elements[0]).Success?
    requires exists i :: 0 <= i < |elements| - 1 && fragmentOf(elements[1..][i]) == Failure(e)
                         && forall j :: 0 <= j < i ==> fragmentOf(elements[1..][j]).Success?
    ensures exists i :: 0 <= i < |elements| && fragmentOf(elements[i]) == Failure(e)
                        && forall j :: 0 <= j < i ==> fragmentOf(elements[j]).Success?
  {
    var i :| 0 <= i < |elements| - 1 && fragmentOf(elements[1..][i]) == Failure(e)
             && forall j :: 0 <= j < i ==> fragmentOf(elements[1..][j]).Success?;
    assert fragmentOf(elements[i + 1]) == Failure(e);
    forall j | 0 <= j < i + 1
      ensures fragmentOf(elements[j]).Success?
    {
      if j > 0 {
        assert elements[j] == elements[1..][j - 1];
      }
    }
  }

  /** The stack fails exactly when some element's fragment fails, with the first such error. */
  lemma FragmentsFailWithFirstError(resolve: Value -> Value, fragmentOf: Located -> Result<Value, Error>,
                                    elements: seq<Located>, i: nat)
    requires i < |elements| && fragmentOf(elements[i]).Failure?
    requires forall j :: 0 <= j < i ==> fragmentOf(elements[j]).Success?
    ensures FragmentsOf(resolve, fragmentOf, elements) == Failure(fragmentOf(elements[i]).error)
  {
    var r := FragmentsOf(resolve, fragmentOf, elements);
    if r.Failure? {
      var k :| 0 <= k < |elements| && fragmentOf(elements[k]) == Failure(r.error)
               && forall j :: 0 <= j < k ==> fragmentOf(elements[j]).Success?;
      assert k == i;
    }
  }

  /** The "//" part of a stack's document: the merged metadata and the output index. */
  function StackHeader(elements: seq<Located>, stackName: string, version: string, overrideKeys: seq<string>,
                       metadataOf: Located -> Value, deepMerge: (Value, Value) -> Value, resolve: Value -> Value): (r: Value)
    ensures r.Obj? && r.fields.Keys == {"//"}
    ensures r.fields["//"].Obj? && r.fields["//"].fields.Keys == {"metadata", "outputs"}
    ensures r.fields["//"].fields["metadata"]
            == StackSynthesis.MergeAll(deepMerge, BaseMetadata(version, stackName, overrideKeys),
                                       ResolveEach(resolve, metadataOf, elements))
    ensures r.fields["//"].fields["outputs"]
            == StackSynthesis.MergeAll(deepMerge, Obj(map[]), StackSynthesis.OutputEntries(elements))
  {
    var metadata := StackSynthesis.MergeAll(deepMerge, BaseMetadata(version, stackName, overrideKeys),
                                            ResolveEach(resolve, metadataOf, elements));
    var outputs := StackSynthesis.MergeAll(deepMerge, Obj(map[]), StackSynthesis.OutputEntries(elements));
    Obj(map["//" := Obj(map["metadata" := metadata, "outputs" := outputs])])
  }

  /**
   * The document of a stack: the header, then every element's resolved
   * fragment merged in element order, the raw overrides merged last, and the
   * whole resolved.
   */
  function StackDocument(elements: seq<Located>, stackName: string, version: string,
                         rawOverrides: map<string, Value>, overrideKeys: seq<string>,
                         metadataOf: Located -> Value, fragments: seq<Value>,
                         deepMerge: (Value, Value) -> Value, resolve: Value -> Value): Value
  {
    var header := StackHeader(elements, stackName, version, overrideKeys, metadataOf, deepMerge, resolve);
    resolve(deepMerge(StackSynthesis.MergeAll(deepMerge, header, fragments), Obj(rawOverrides)))
  }

  // ---------------------------------------------------------------- the stack

  class TerraformStack {
    const id: string
    const path: string
    /** The stack's raw overrides, and their top-level keys in insertion order (`Object.keys`). */
    var rawOverrides: map<string, Value>
    var overrideKeys: seq<string>
    /** `crossStackOutputs`, and the identifiers in the order their outputs were created. */
    var crossStackOutputs: map<string, CrossStackOutput>
    var outputOrder: seq<string>
    /** `crossStackDataSources`, and the producer paths in the order their sources were created. */
    var crossStackDataSources: map<string, RemoteState>
    var dataSourceOrder: seq<string>

    ghost predicate Valid()
      reads this
    {
      && Distinct(overrideKeys) && (forall k :: k in overrideKeys <==> k in rawOverrides)
      && Distinct(outputOrder) && (forall k :: k in outputOrder <==> k in crossStackOutputs)
      && (forall k :: k in crossStackOutputs ==> crossStackOutputs[k] == OutgoingOutput(path, k))
      && Distinct(dataSourceOrder) && (forall k :: k in dataSourceOrder <==> k in crossStackDataSources)
      && (forall k :: k in crossStackDataSources ==> crossStackDataSources[k] == IncomingSource(path, k))
    }

    /** The registries and overrides of a new stack. */
    constructor (id: string, path: string)
      ensures Valid()
      ensures this.id == id && this.path == path
      ensures rawOverrides == map[] && overrideKeys == []
      ensures crossStackOutputs == map[] && outputOrder == []
      ensures crossStackDataSources == map[] && dataSourceOrder == []
    {
      this.id := id;
      this.path := path;
      rawOverrides := map[];
      overrideKeys := [];
      crossStackOutputs := map[];
      outputOrder := [];
      crossStackDataSources := map[];
      dataSourceOrder := [];
    }

    /**
     * `addOverride(path, value)`: walks the dot-separated parts down the raw
     * overrides, replacing every intermediate that is not an object by `{}`,
     * and stores `value` under the last part.
     */
    method AddOverride(overridePath: string, value: Value)
      requires Valid()
      modifies this
      ensures Valid()
      ensures rawOverrides == SetPath(old(rawOverrides), Strings.Split(overridePath, '.'), value)
      ensures overrideKeys == old(overrideKeys) +
        (if Strings.Split(overridePath, '.')[0] in old(rawOverrides) then [] else [Strings.Split(overridePath, '.')[0]])
      ensures crossStackOutputs == old(crossStackOutputs) && outputOrder == old(outputOrder)
      ensures crossStackDataSources == old(crossStackDataSources) && dataSourceOrder == old(dataSourceOrder)
    {
      var parts := Strings.Split(overridePath, '.');
      var updated := StorePath(rawOverrides, parts, value);
      if parts[0] !in rawOverrides {
        overrideKeys := overrideKeys + [parts[0]];
      }
      rawOverrides := updated;
    }

    /**
     * `registerOutgoingCrossStackReference(identifier)`: the output memoised
     * under `identifier`, created (id `cross-stack-output-<identifier>`,
     * sensitive) only on the first call.
     */
    method RegisterOutgoingCrossStackReference(identifier: string) returns (output: CrossStackOutput)
      requires Valid()
      modifies this
      ensures Valid()
      ensures output == OutgoingOutput(path, identifier)
      ensures crossStackOutputs == old(crossStackOutputs)[identifier := output]
      ensures outputOrder == old(outputOrder) + (if identifier in old(crossStackOutputs) then [] else [identifier])
      ensures rawOverrides == old(rawOverrides) && overrideKeys == old(overrideKeys)
      ensures crossStackDataSources == old(crossStackDataSources) && dataSourceOrder == old(dataSourceOrder)
    {
      if identifier in crossStackOutputs {
        return crossStackOutputs[identifier];
      }
      output := CrossStackOutput("cross-stack-output-" + identifier, Reference(identifier, path), true);
      crossStackOutputs := crossStackOutputs[identifier := output];
      outputOrder := outputOrder + [identifier];
    }

    /**
     * `registerIncomingCrossStackReference(fromStack)`: looks the producer up
     * under `String(fromStack)` and, when absent, asks the producer's backend
     * for a data source and stores it under the producer's path.
     */
    method RegisterIncomingCrossStackReference(fromStack: TerraformStack) returns (source: RemoteState)
      requires Valid()
      modifies this
      ensures Valid()
      ensures ConstructString(fromStack.path) in old(crossStackDataSources) ==>
        source == old(crossStackDataSources)[ConstructString(fromStack.path)]
        && crossStackDataSources == old(crossStackDataSources) && dataSourceOrder == old(dataSourceOrder)
      ensures ConstructString(fromStack.path) !in old(crossStackDataSources) ==>
        source == IncomingSource(path, fromStack.path)
        && crossStackDataSources == old(crossStackDataSources)[fromStack.path := source]
        && dataSourceOrder == old(dataSourceOrder) + (if fromStack.path in old(crossStackDataSources) then [] else [fromStack.path])
      ensures fromStack.path != "" ==> source == IncomingSource(path, fromStack.path) && fromStack.path in crossStackDataSources
      ensures rawOverrides == old(rawOverrides) && overrideKeys == old(overrideKeys)
      ensures crossStackOutputs == old(crossStackOutputs) && outputOrder == old(outputOrder)
    {
      var key := ConstructString(fromStack.path);
      if key in crossStackDataSources {
        return crossStackDataSources[key];
      }
      var originPath := fromStack.path;
      source := RemoteState(path, "cross-stack-reference-input-" + originPath, originPath);
      crossStackDataSources := crossStackDataSources[originPath := source];
      if originPath !in dataSourceOrder {
        dataSourceOrder := dataSourceOrder + [originPath];
      }
    }

    /** The outputs this stack has created for cross-stack references, in creation order. */
    function CreatedOutputs(): (r: seq<CrossStackOutput>)
      reads this
      requires Valid()
      ensures |r| == |outputOrder|
    {
      seq(|outputOrder|, i requires 0 <= i < |outputOrder| reads this =>
        if outputOrder[i] in crossStackOutputs then crossStackOutputs[outputOrder[i]] else OutgoingOutput(path, outputOrder[i]))
    }

    /**
     * `toTerraform()`: the metadata and output index under "//", then every
     * element's resolved fragment merged in element order, the stack's raw
     * overrides merged last, and the whole resolved. `deepMerge`, `resolve` and
     * the elements' own `toTerraform`/`toMetadata` are parameters. `node` is
     * this stack's own node in the construct tree, below the scopes `above`.
     */
    method ToTerraform(node: Node, above: seq<string>, version: string,
                       metadataOf: Located -> Value, fragmentOf: Located -> Result<Value, Error>,
                       deepMerge: (Value, Value) -> Value, resolve: Value -> Value) returns (tf: Result<Value, Error>)
      requires node.kind.Stack? && node.id == id && PathOf(above + [id]) == path
      ensures
        var fragments := FragmentsOf(resolve, fragmentOf, StackSynthesis.Elements(node, above));
        && (tf.Failure? <==> fragments.Failure?)
        && (tf.Failure? ==> tf.error == fragments.error)
        && (tf.Success? ==>
              tf.value == StackDocument(StackSynthesis.Elements(node, above), node.id, version, rawOverrides, overrideKeys,
                                        metadataOf, fragments.value, deepMerge, resolve))
    {
      var keys, overrides := overrideKeys, rawOverrides;
      var elements := StackSynthesis.CollectElements(node, above, []);
      assert elements == StackSynthesis.Elements(node, above);
      var metadata := MergeInOrder(deepMerge, BaseMetadata(version, node.id, keys),
                                   ResolveEach(resolve, metadataOf, elements));
      var outputs := StackSynthesis.OutputIndex(elements, deepMerge);
      var header := Obj(map["//" := Obj(map["metadata" := metadata, "outputs" := outputs])]);
      assert header == StackHeader(elements, node.id, version, keys, metadataOf, deepMerge, resolve);
      var fragments := FragmentsOf(resolve, fragmentOf, elements);
      if fragments.Failure? {
        return Failure(fragments.error);
      }
      var merged := MergeInOrder(deepMerge, header, fragments.value);
      var doc := resolve(deepMerge(merged, Obj(overrides)));
      assert doc == StackDocument(elements, node.id, version, overrides, keys, metadataOf, fragments.value, deepMerge, resolve);
      tf := Success(doc);
    }
  }

  /** The `reduce` that deep-merges `vs` one after the other onto `start`. */
  method MergeInOrder(deepMerge: (Value, Value) -> Value, start: Value, vs: seq<Value>) returns (acc: Value)
    ensures acc == StackSynthesis.MergeAll(deepMerge, start, vs)
  {
    acc := start;
    var i := 0;
    while i < |vs|
      invariant 0 <= i <= |vs|
      invariant acc == StackSynthesis.MergeAll(deepMerge, start, vs[..i])
    {
      assert vs[..i + 1][..i] == vs[..i];
      acc := deepMerge(acc, vs[i]);
      i := i + 1;
    }
    assert vs[..|vs|] == vs;
  }

  /**
   * `new TerraformStack(scope, id)`: the id checks of the constructor, glob
   * characters first; a stack with empty registries when both pass.
   */
  method Create(id: string, path: string) returns (r: Result<TerraformStack, Error>)
    ensures r.Failure? <==> ValidateStackId(id).Fail?
    ensures r.Failure? ==> r.error == ValidateStackId(id).error
    ensures r.Success? ==>
      (fresh(r.value) && r.value.Valid() && r.value.id == id && r.value.path == path
       && r.value.rawOverrides == map[] && r.value.crossStackOutputs == map[] && r.value.crossStackDataSources == map[])
  {
    var check := ValidateStackId(id);
    if check.Fail? {
      return Failure(check.error);
    }
    var stack := new TerraformStack(id, path);
    r := Success(stack);
  }

  /** Each identifier yields an output with its own construct id. */
  lemma OutgoingOutputInjective(stackPath: string, a: string, b: string)
    requires OutgoingOutput(stackPath, a).constructId == OutgoingOutput(stackPath, b).constructId
    ensures a == b
  {
    var p := "cross-stack-output-";
    assert a == OutgoingOutput(stackPath, a).constructId[|p|..];
  }

  /**
   * However often references are registered, a stack creates exactly one
   * output per identifier: the created outputs have pairwise distinct
   * construct ids, and every memoised output is among them.
   */
  lemma OneOutputPerIdentifier(s: TerraformStack)
    requires s.Valid()
    ensures forall i, j :: 0 <= i < j < |s.CreatedOutputs()| ==>
      s.CreatedOutputs()[i].constructId != s.CreatedOutputs()[j].constructId
    ensures forall k :: k in s.crossStackOutputs ==> exists i :: 0 <= i < |s.CreatedOutputs()| && s.CreatedOutputs()[i] == s.crossStackOutputs[k]
  {
    var outs := s.CreatedOutputs();
    forall i, j | 0 <= i < j < |outs| ensures outs[i].constructId != outs[j].constructId {
      if outs[i].constructId == outs[j].constructId {
        OutgoingOutputInjective(s.path, s.outputOrder[i], s.outputOrder[j]);
      }
    }
    forall k | k in s.crossStackOutputs ensures exists i :: 0 <= i < |outs| && outs[i] == s.crossStackOutputs[k] {
      var i :| 0 <= i < |s.outputOrder| && s.outputOrder[i] == k;
      assert outs[i] == s.crossStackOutputs[k];
    }
  }
}
