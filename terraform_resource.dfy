/**
 * `TerraformResource`: its meta-arguments, the move and import state its
 * methods record, and the fragment it contributes to a stack's document in
 * the JSON form (`toTerraform`) and the HCL form (`toHclTerraform`).
 */
module TerraformResources {
  import opened Wrappers
  import opened Errors
  import opened Values
  import StackSynthesis
  import Strings

  // ---------------------------------------------------------------- lifecycle

  datatype IgnoreChanges = IgnoreList(attributes: seq<string>) | IgnoreAll

  /** An entry of `replaceTriggeredBy`: a plain string, or a dependable known by its fqn. */
  datatype Trigger = TriggerName(name: string) | TriggerDependable(fqn: string)

  /** `TerraformResourceLifecycle`; pre- and postconditions are kept as opaque values. */
  datatype Lifecycle = Lifecycle(
    createBeforeDestroy: Option<bool>,
    preventDestroy: Option<bool>,
    ignoreChanges: Option<IgnoreChanges>,
    replaceTriggeredBy: Option<seq<Trigger>>,
    precondition: Option<seq<Value>>,
    postcondition: Option<seq<Value>>)

  /** The string a trigger renders to: the string itself, or the dependable's fqn. */
  function TriggerString(t: Trigger): string
  {
    match t
    case TriggerName(name) => name
    case TriggerDependable(fqn) => fqn
  }

  predicate AllNames(ts: seq<Trigger>)
  {
    forall i :: 0 <= i < |ts| ==> ts[i].TriggerName?
  }

  /**
   * `lifecycleToTerraform`: an absent lifecycle stays absent; otherwise every
   * field is kept, except that a non-empty `replaceTriggeredBy` has each
   * dependable replaced by its fqn, in place.
   */
  function LifecycleToTerraform(lifecycle: Option<Lifecycle>): (r: Option<Lifecycle>)
    ensures r.None? <==> lifecycle.None?
    ensures r.Some? ==>
      var l, o := lifecycle.value, r.value;
      && o.createBeforeDestroy == l.createBeforeDestroy && o.preventDestroy == l.preventDestroy
      && o.ignoreChanges == l.ignoreChanges && o.precondition == l.precondition && o.postcondition == l.postcondition
      && o.replaceTriggeredBy.Some? == l.replaceTriggeredBy.Some?
      && (o.replaceTriggeredBy.Some? ==>
            var before, after := l.replaceTriggeredBy.value, o.replaceTriggeredBy.value;
            |after| == |before| && AllNames(after)
            && forall i :: 0 <= i < |before| ==> after[i] == TriggerName(TriggerString(before[i])))
  {
    match lifecycle
    case None => None
    case Some(l) =>
      if l.replaceTriggeredBy.Some? && |l.replaceTriggeredBy.value| > 0 then
        var ts := l.replaceTriggeredBy.value;
        Some(l.(replaceTriggeredBy := Some(seq(|ts|, i requires 0 <= i < |ts| => TriggerName(TriggerString(ts[i]))))))
      else Some(l)
  }

  /** Preparing a lifecycle that was already prepared changes nothing. */
  lemma LifecycleToTerraformIdempotent(lifecycle: Option<Lifecycle>)
    ensures LifecycleToTerraform(LifecycleToTerraform(lifecycle)) == LifecycleToTerraform(lifecycle)
  {
    var once := LifecycleToTerraform(lifecycle);
    if once.Some? && once.value.replaceTriggeredBy.Some? {
      var ts := once.value.replaceTriggeredBy.value;
      var twice := LifecycleToTerraform(once);
      assert twice.value.replaceTriggeredBy.value == ts;
      assert twice.value == once.value;
    }
  }

  // ---------------------------------------------------------------- meta-arguments

  /** `count`: a number, or a `TerraformCount` whose `toTerraform()` is `expression`. */
  datatype Count = CountNumber(n: int) | CountObject(expression: Value)

  datatype Provider = Provider(fqn: string)

  /** A provisioner: its `type` and its remaining properties. */
  datatype Provisioner = Provisioner(provisionerType: string, props: map<string, Value>)

  /** What `terraformMetaArguments` returns; `forEach` holds the iterator's for-each expression. */
  datatype MetaArguments = MetaArguments(
    dependsOn: Option<seq<string>>,
    count: Option<Value>,
    provider: Option<string>,
    lifecycle: Option<Lifecycle>,
    forEach: Option<Value>,
    connection: Option<Value>)

  /** A number count renders as the number, a `TerraformCount` as its expression. */
  function CountValue(c: Count): Value
  {
    match c
    case CountNumber(n) => Num(n)
    case CountObject(expression) => expression
  }

  function BoolValue(b: Option<bool>): Option<Value>
  {
    if b.Some? then Some(Bool(b.value)) else None
  }

  function ArrValue(vs: Option<seq<Value>>): Option<Value>
  {
    if vs.Some? then Some(Arr(vs.value)) else None
  }

  /**
   * How a `replaceTriggeredBy` entry is serialized: a string as itself; a
   * dependable that was not converted to its fqn stays an object (only its
   * `fqn` property is modelled).
   */
  function TriggerValue(t: Trigger): (r: Value)
    ensures t.TriggerName? <==> r.Str?
    ensures t.TriggerName? ==> r == Str(t.name)
  {
    match t
    case TriggerName(name) => Str(name)
    case TriggerDependable(fqn) => Obj(map["fqn" := Str(fqn)])
  }

  function TriggerValues(ts: seq<Trigger>): (r: seq<Value>)
    ensures |r| == |ts| && forall i :: 0 <= i < |ts| ==> r[i] == TriggerValue(ts[i])
  {
    seq(|ts|, i requires 0 <= i < |ts| => TriggerValue(ts[i]))
  }

  function IgnoreChangesValue(c: IgnoreChanges): Value
  {
    match c
    case IgnoreAll => Str("all")
    case IgnoreList(attrs) => Arr(Strs(attrs))
  }

  const LifecycleKeys: set<string> :=
    {"createBeforeDestroy", "preventDestroy", "ignoreChanges", "replaceTriggeredBy", "precondition", "postcondition"}

  /** What `{...lifecycle}` holds under `key`; `None` is an unset field, which JSON output drops. */
  function LifecycleField(l: Lifecycle, key: string): Option<Value>
  {
    if key == "createBeforeDestroy" then BoolValue(l.createBeforeDestroy)
    else if key == "preventDestroy" then BoolValue(l.preventDestroy)
    else if key == "ignoreChanges" then (if l.ignoreChanges.Some? then Some(IgnoreChangesValue(l.ignoreChanges.value)) else None)
    else if key == "replaceTriggeredBy" then
      (if l.replaceTriggeredBy.Some? then Some(Arr(TriggerValues(l.replaceTriggeredBy.value))) else None)
    else if key == "precondition" then ArrValue(l.precondition)
    else if key == "postcondition" then ArrValue(l.postcondition)
    else None
  }

  /** The object form of a lifecycle: a key for each field that is set, and no other. */
  function LifecycleObject(l: Lifecycle): (r: Value)
    ensures r.Obj?
    ensures forall k :: (k in r.fields <==> LifecycleField(l, k).Some?)
    ensures forall k :: k in r.fields ==> r.fields[k] == LifecycleField(l, k).value
  {
    Obj(map k | k in LifecycleKeys && LifecycleField(l, k).Some? :: LifecycleField(l, k).value)
  }

  /** Field by field: every set field of the lifecycle appears under its own name with its value. */
  lemma LifecycleObjectFields(l: Lifecycle)
    ensures
      var r := LifecycleObject(l).fields;
      && r.Keys <= LifecycleKeys
      && ("createBeforeDestroy" in r <==> l.createBeforeDestroy.Some?)
      && ("preventDestroy" in r <==> l.preventDestroy.Some?)
      && ("ignoreChanges" in r <==> l.ignoreChanges.Some?)
      && ("replaceTriggeredBy" in r <==> l.replaceTriggeredBy.Some?)
      && ("precondition" in r <==> l.precondition.Some?)
      && ("postcondition" in r <==> l.postcondition.Some?)
      && (l.createBeforeDestroy.Some? ==> r["createBeforeDestroy"] == Bool(l.createBeforeDestroy.value))
      && (l.preventDestroy.Some? ==> r["preventDestroy"] == Bool(l.preventDestroy.value))
      && (l.ignoreChanges == Some(IgnoreAll) ==> r["ignoreChanges"] == Str("all"))
      && (l.ignoreChanges.Some? && l.ignoreChanges.value.IgnoreList? ==>
            r["ignoreChanges"] == Arr(Strs(l.ignoreChanges.value.attributes)))
      && (l.replaceTriggeredBy.Some? ==>
            r["replaceTriggeredBy"].Arr? && |r["replaceTriggeredBy"].items| == |l.replaceTriggeredBy.value|
            && forall i :: 0 <= i < |l.replaceTriggeredBy.value| ==>
                 r["replaceTriggeredBy"].items[i] == TriggerValue(l.replaceTriggeredBy.value[i]))
      && (l.precondition.Some? ==> r["precondition"] == Arr(l.precondition.value))
      && (l.postcondition.Some? ==> r["postcondition"] == Arr(l.postcondition.value))
  {
  }

  /**
   * After `lifecycleToTerraform` every trigger is serialized as a string,
   * and a dependable's entry then differs from what the unconverted
   * lifecycle would render: the conversion is visible in the document.
   */
  lemma PreparedTriggersAreStrings(l: Lifecycle, i: nat)
    requires l.replaceTriggeredBy.Some? && i < |l.replaceTriggeredBy.value|
    ensures
      var prepared := LifecycleObject(LifecycleToTerraform(Some(l)).value).fields["replaceTriggeredBy"].items;
      var raw := LifecycleObject(l).fields["replaceTriggeredBy"].items;
      && prepared[i] == Str(TriggerString(l.replaceTriggeredBy.value[i]))
      && (l.replaceTriggeredBy.value[i].TriggerDependable? ==> prepared[i] != raw[i])
  {
    var prepared := LifecycleToTerraform(Some(l)).value;
    assert prepared.replaceTriggeredBy.value[i] == TriggerName(TriggerString(l.replaceTriggeredBy.value[i]));
  }

  const MetaArgumentKeys: set<string> := {"dependsOn", "count", "provider", "lifecycle", "forEach", "connection"}

  /** What the `terraformMetaArguments` object holds under `key`; `None` is `undefined`. */
  function MetaArgumentField(m: MetaArguments, key: string): Option<Value>
  {
    if key == "dependsOn" then (if m.dependsOn.Some? then Some(Arr(Strs(m.dependsOn.value))) else None)
    else if key == "count" then m.count
    else if key == "provider" then (if m.provider.Some? then Some(Str(m.provider.value)) else None)
    else if key == "lifecycle" then (if m.lifecycle.Some? then Some(LifecycleObject(m.lifecycle.value)) else None)
    else if key == "forEach" then m.forEach
    else if key == "connection" then m.connection
    else None
  }

  /** The object form of the meta-arguments, before its keys are snake-cased: a key for each one that is set. */
  function MetaArgumentsObject(m: MetaArguments): (r: map<string, Value>)
    ensures forall k :: (k in r <==> MetaArgumentField(m, k).Some?)
    ensures forall k :: k in r ==> r[k] == MetaArgumentField(m, k).value
  {
    map k | k in MetaArgumentKeys && MetaArgumentField(m, k).Some? :: MetaArgumentField(m, k).value
  }

  /** Argument by argument: every set meta-argument appears under its own name with its rendered value. */
  lemma MetaArgumentsObjectFields(m: MetaArguments)
    ensures
      var r := MetaArgumentsObject(m);
      && r.Keys <= MetaArgumentKeys
      && ("dependsOn" in r <==> m.dependsOn.Some?) && ("count" in r <==> m.count.Some?)
      && ("provider" in r <==> m.provider.Some?) && ("lifecycle" in r <==> m.lifecycle.Some?)
      && ("forEach" in r <==> m.forEach.Some?) && ("connection" in r <==> m.connection.Some?)
      && (m.dependsOn.Some? ==> r["dependsOn"] == Arr(Strs(m.dependsOn.value)))
      && (m.count.Some? ==> r["count"] == m.count.value)
      && (m.provider.Some? ==> r["provider"] == Str(m.provider.value))
      && (m.lifecycle.Some? ==> r["lifecycle"] == LifecycleObject(m.lifecycle.value))
      && (m.forEach.Some? ==> r["forEach"] == m.forEach.value)
      && (m.connection.Some? ==> r["connection"] == m.connection.value)
  {
  }

  // ---------------------------------------------------------------- moves and imports

  /** The index of `moveTo`: absent, a string or a number. */
  datatype MoveIndex = NoIndex | IndexString(s: string) | IndexNumber(n: int)

  /** Whether the index is truthy: `""` and `0` count as absent. */
  predicate IsTruthy(index: MoveIndex)
  {
    match index
    case NoIndex => false
    case IndexString(s) => s != ""
    case IndexNumber(n) => n != 0
  }

  /** The suffix an index adds to a moved-to address: `["s"]` for a string, `[n]` for a number. */
  function IndexSuffix(index: MoveIndex): (r: string)
    ensures r == "" <==> !IsTruthy(index)
    ensures index.IndexString? && IsTruthy(index) ==> r == "[\"" + index.s + "\"]"
    ensures index.IndexNumber? && IsTruthy(index) ==> r == "[" + Strings.IntToString(index.n) + "]"
  {
    if !IsTruthy(index) then ""
    else match index
      case IndexString(s) => "[\"" + s + "\"]"
      case IndexNumber(n) => "[" + Strings.IntToString(n) + "]"
  }

  datatype MoveByTarget = MoveByTarget(moveTarget: string, index: MoveIndex)

  datatype Import = Import(id: string, provider: Option<Provider>)

  /** The resource a move target names in the stack's move-target registry. */
  datatype ResourceAddress = ResourceAddress(resourceType: string, friendlyUniqueId: string)

  /** A validation added to the construct node. */
  datatype Validation = RequireTerraformVersion(constraint: string, message: string)

  const ImportVersionMessage := "Import blocks are only supported for Terraform >=1.5. Please upgrade your Terraform version."

  // ---------------------------------------------------------------- fragments

  /** `{ [type]: { [friendlyUniqueId]: attributes } }`. */
  datatype ResourceBlock = ResourceBlock(resourceType: string, friendlyUniqueId: string, attributes: Value)

  datatype ImportEntry = ImportEntry(provider: Option<string>, id: string, to: string)

  /** A resource's JSON fragment; `moved` and `import` stand for one-element lists. */
  datatype Fragment = Fragment(resource: Option<ResourceBlock>, moved: Option<AddressPair>, importEntry: Option<ImportEntry>)

  /** A value with the rendering hints of the HCL form. */
  datatype Hinted = Hinted(value: string, isBlock: Option<bool>, hintType: string, storageClassType: string)

  datatype HclMoved = HclMoved(to: Hinted, from: Hinted)

  datatype HclImport = HclImport(to: Hinted, id: Hinted, provider: Option<Hinted>)

  datatype HclFragment = HclFragment(resource: Option<ResourceBlock>, moved: Option<HclMoved>, importEntry: Option<HclImport>)

  function Reference(v: string): Hinted { Hinted(v, None, "simple", "reference") }

  /** What `attributes["//"]` already holds: its entries when it is an object, none otherwise. */
  function ExistingMetadata(attributes: Value): map<string, Value>
  {
    if attributes.Obj? && "//" in attributes.fields && attributes.fields["//"].Obj? then attributes.fields["//"].fields
    else map[]
  }

  /** `attributes["//"] = { ...(attributes["//"] ?? {}), ...constructNodeMetadata }`. */
  function WithNodeMetadata(attributes: Value, nodeMetadata: map<string, Value>): (r: Value)
    ensures r.Obj? && "//" in r.fields && r.fields["//"].Obj?
    ensures r.fields.Keys == (if attributes.Obj? then attributes.fields.Keys else {}) + {"//"}
    ensures attributes.Obj? ==> forall k :: k in attributes.fields && k != "//" ==> r.fields[k] == attributes.fields[k]
    ensures r.fields["//"].fields.Keys == nodeMetadata.Keys + ExistingMetadata(attributes).Keys
    ensures forall k :: k in nodeMetadata ==> r.fields["//"].fields[k] == nodeMetadata[k]
    ensures forall k :: k in ExistingMetadata(attributes) && k !in nodeMetadata ==>
      r.fields["//"].fields[k] == ExistingMetadata(attributes)[k]
  {
    var fields := if attributes.Obj? then attributes.fields else map[];
    Obj(fields["//" := Obj(ExistingMetadata(attributes) + nodeMetadata)])
  }

  /** The `provisioner` part of the JSON attributes: `{ [type]: snakeCase(props) }` per provisioner. */
  function ProvisionerField(snakeCase: Value -> Value, provisioners: Option<seq<Provisioner>>): (r: map<string, Value>)
    ensures r.Keys <= {"provisioner"}
    ensures "provisioner" in r <==> provisioners.Some?
    ensures provisioners.Some? ==>
      var ps, entries := provisioners.value, r["provisioner"];
      entries.Arr? && |entries.items| == |ps|
      && forall i :: 0 <= i < |ps| ==> entries.items[i] == Obj(map[ps[i].provisionerType := snakeCase(Obj(ps[i].props))])
  {
    match provisioners
    case None => map[]
    case Some(ps) =>
      map["provisioner" := Arr(seq(|ps|, i requires 0 <= i < |ps| =>
        Obj(map[ps[i].provisionerType := snakeCase(Obj(ps[i].props))])))]
  }

  /** The HCL rendering hint of a list block of objects holding `value`. */
  function ListBlock(value: Value): (r: Value)
    ensures r.Obj? && r.fields.Keys == {"isBlock", "type", "storageClassType", "value"}
    ensures r.fields["isBlock"] == Bool(true) && r.fields["type"] == Str("list")
    ensures r.fields["storageClassType"] == Str("object") && r.fields["value"] == value
  {
    Obj(map["isBlock" := Bool(true), "type" := Str("list"), "storageClassType" := Str("object"), "value" := value])
  }

  /** The HCL `provisioner` part: each provisioner's properties as a list block of objects. */
  function HclProvisionerField(snakeCase: Value -> Value, provisioners: Option<seq<Provisioner>>): (r: map<string, Value>)
    ensures r.Keys <= {"provisioner"}
    ensures "provisioner" in r <==> provisioners.Some?
    ensures provisioners.Some? ==>
      var ps, entries := provisioners.value, r["provisioner"];
      entries.Arr? && |entries.items| == |ps|
      && forall i :: 0 <= i < |ps| ==> entries.items[i] == Obj(map[ps[i].provisionerType := ListBlock(snakeCase(Obj(ps[i].props)))])
  {
    match provisioners
    case None => map[]
    case Some(ps) =>
      map["provisioner" := Arr(seq(|ps|, i requires 0 <= i < |ps| =>
        Obj(map[ps[i].provisionerType := ListBlock(snakeCase(Obj(ps[i].props)))])))]
  }

  /** The configuration a resource is constructed with; `dependsOn` holds the dependables' fqns. */
  datatype ResourceConfig = ResourceConfig(
    terraformResourceType: string,
    dependsOn: Option<seq<string>>,
    count: Option<Count>,
    provider: Option<Provider>,
    lifecycle: Option<Lifecycle>,
    forEach: Option<Value>,
    provisioners: Option<seq<Provisioner>>,
    connection: Option<Value>)

  /** The state of a resource other than its move bookkeeping. */
  datatype Settings = Settings(
    dependsOn: Option<seq<string>>, count: Option<Count>, provider: Option<Provider>,
    lifecycle: Option<Lifecycle>, forEach: Option<Value>, provisioners: Option<seq<Provisioner>>,
    connection: Option<Value>, imported: Option<Import>, validations: seq<Validation>)

  // ---------------------------------------------------------------- the resource

  class TerraformResource {
    const terraformResourceType: string
    /** The logical id the stack allocated, and the construct's id, path and stack path. */
    const friendlyUniqueId: string
    const nodeId: string
    const path: string
    const stackPath: string

    var dependsOn: Option<seq<string>>
    var count: Option<Count>
    var provider: Option<Provider>
    var lifecycle: Option<Lifecycle>
    var forEach: Option<Value>
    var connection: Option<Value>
    var provisioners: Option<seq<Provisioner>>
    var imported: Option<Import>
    var movedByTarget: Option<MoveByTarget>
    var movedById: Option<AddressPair>
    var hasMoved: bool
    var validations: seq<Validation>

    /** `type.friendlyUniqueId`, the resource's own address. */
    function Address(): string
    {
      terraformResourceType + "." + friendlyUniqueId
    }

    /**
     * The move bookkeeping the three move methods keep: a move by target
     * always hides the resource; a hidden resource without one was moved away
     * by id; and a by-id move of a resource still shown moves something to it.
     */
    ghost predicate Valid()
      reads this
    {
      && (movedByTarget.Some? ==> hasMoved)
      && (hasMoved && movedByTarget.None? ==> movedById.Some? && movedById.value.from == Address())
      && (!hasMoved && movedById.Some? ==> movedById.value.to == Address())
    }

    ghost function CurrentSettings(): Settings
      reads this
    {
      Settings(dependsOn, count, provider, lifecycle, forEach, provisioners, connection, imported, validations)
    }

    /** The constructor: the configuration's meta-arguments, `dependsOn` mapped through `dependable`, and no moves. */
    constructor (config: ResourceConfig, friendlyUniqueId: string, nodeId: string, path: string, stackPath: string,
                 dependable: string -> string)
      ensures Valid()
      ensures terraformResourceType == config.terraformResourceType && this.friendlyUniqueId == friendlyUniqueId
      ensures this.nodeId == nodeId && this.path == path && this.stackPath == stackPath
      ensures dependsOn.Some? <==> config.dependsOn.Some?
      ensures dependsOn.Some? ==>
        (|dependsOn.value| == |config.dependsOn.value|
         && forall i :: 0 <= i < |dependsOn.value| ==> dependsOn.value[i] == dependable(config.dependsOn.value[i]))
      ensures count == config.count && provider == config.provider && lifecycle == config.lifecycle
      ensures forEach == config.forEach && provisioners == config.provisioners && connection == config.connection
      ensures imported.None? && movedByTarget.None? && movedById.None? && !hasMoved && validations == []
    {
      terraformResourceType := config.terraformResourceType;
      this.friendlyUniqueId := friendlyUniqueId;
      this.nodeId := nodeId;
      this.path := path;
      this.stackPath := stackPath;
      match config.dependsOn {
        case None => dependsOn := None;
        case Some(ds) => dependsOn := Some(seq(|ds|, i requires 0 <= i < |ds| => dependable(ds[i])));
      }
      count := config.count;
      provider := config.provider;
      lifecycle := config.lifecycle;
      forEach := config.forEach;
      provisioners := config.provisioners;
      connection := config.connection;
      imported := None;
      movedByTarget := None;
      movedById := None;
      hasMoved := false;
      validations := [];
    }

    /** `hasResourceMove()`: a move by id or by target was recorded. */
    predicate HasResourceMove()
      reads this
      ensures HasResourceMove() <==> movedById.Some? || movedByTarget.Some?
      ensures Valid() && HasResourceMove() && !hasMoved ==> movedById.Some? && movedById.value.to == Address()
    {
      movedById.Some? || movedByTarget.Some?
    }

    /**
     * `terraformMetaArguments`: fails when `forEach` is set and `count` is
     * anything but undefined (a count of 0 included); otherwise the
     * meta-arguments, with the count rendered, the provider by its fqn and
     * the lifecycle prepared by `LifecycleToTerraform`.
     */
    function MetaArgumentsOf(): (r: Result<MetaArguments, Error>)
      reads this
      ensures r.Failure? <==> forEach.Some? && count.Some?
      ensures r.Failure? ==> r.error == ForEachAndCountBothSet(path)
      ensures r.Success? ==> !(r.value.forEach.Some? && r.value.count.Some?)
      ensures r.Success? ==>
        && r.value.dependsOn == dependsOn && r.value.forEach == forEach && r.value.connection == connection
        && r.value.count == (if count.Some? then Some(CountValue(count.value)) else None)
        && r.value.provider == (if provider.Some? then Some(provider.value.fqn) else None)
        && r.value.lifecycle == LifecycleToTerraform(lifecycle)
    {
      if forEach.Some? && count.Some? then Failure(ForEachAndCountBothSet(path))
      else Success(MetaArguments(
        dependsOn,
        if count.Some? then Some(CountValue(count.value)) else None,
        if provider.Some? then Some(provider.value.fqn) else None,
        LifecycleToTerraform(lifecycle),
        forEach,
        connection))
    }

    /**
     * `_buildMovedBlockByTarget`: the target must exist in the registry and
     * have this resource's type; the block moves this resource's address to
     * the target's, with the index suffix when the index is truthy.
     */
    function BuildMovedBlockByTarget(moved: MoveByTarget, targets: map<string, ResourceAddress>): (r: Result<AddressPair, Error>)
      ensures moved.moveTarget !in targets ==> r == Failure(MoveTargetNotFound(moved.moveTarget))
      ensures moved.moveTarget in targets && targets[moved.moveTarget].resourceType != terraformResourceType ==>
        r == Failure(MovedToResourceOfDifferentType(moved.moveTarget, terraformResourceType, targets[moved.moveTarget].resourceType))
      ensures r.Success? <==> moved.moveTarget in targets && targets[moved.moveTarget].resourceType == terraformResourceType
      ensures r.Success? ==>
        (r.value.from == Address()
         && r.value.to == terraformResourceType + "." + targets[moved.moveTarget].friendlyUniqueId + IndexSuffix(moved.index)
         && r.value.to[..|terraformResourceType| + 1] == terraformResourceType + ".")
    {
      if moved.moveTarget !in targets then Failure(MoveTargetNotFound(moved.moveTarget))
      else
        var target := targets[moved.moveTarget];
        if terraformResourceType != target.resourceType then
          Failure(MovedToResourceOfDifferentType(moved.moveTarget, terraformResourceType, target.resourceType))
        else
          var to := terraformResourceType + "." + target.friendlyUniqueId + IndexSuffix(moved.index);
          assert to[..|terraformResourceType| + 1] == terraformResourceType + ".";
          Success(AddressPair(to, Address()))
    }

    /**
     * `_buildMovedBlock`: both kinds of move together fail; otherwise the
     * block of the one recorded, or none.
     */
    function BuildMovedBlock(targets: map<string, ResourceAddress>): (r: Result<Option<AddressPair>, Error>)
      reads this
      ensures movedByTarget.Some? && movedById.Some? ==>
        r == Failure(TwoMovesByTargetAndId(nodeId, movedByTarget.value.moveTarget, movedById.value))
      ensures movedByTarget.Some? && movedById.None? ==>
        match BuildMovedBlockByTarget(movedByTarget.value, targets)
        case Success(pair) => r == Success(Some(pair))
        case Failure(e) => r == Failure(e)
      ensures movedByTarget.None? ==> r == Success(movedById)
      ensures r.Success? ==> (r.value.Some? <==> HasResourceMove())
    {
      if movedByTarget.Some? && movedById.Some? then
        Failure(TwoMovesByTargetAndId(nodeId, movedByTarget.value.moveTarget, movedById.value))
      else if movedByTarget.Some? then
        var pair :- BuildMovedBlockByTarget(movedByTarget.value, targets);
        Success(Some(pair))
      else if movedById.Some? then Success(Some(movedById.value))
      else Success(None)
    }

    /**
     * The attributes `toTerraform` deep-merges, in this order: the subclass's
     * processed attributes, the snake-cased meta-arguments, the provisioners
     * and the element's raw overrides; then the node metadata goes under "//".
     */
    function Attributes(synthesized: Value, provisionerField: map<string, Value>, meta: MetaArguments,
                        rawOverrides: map<string, Value>, nodeMetadata: map<string, Value>,
                        snakeCase: Value -> Value, deepMerge: (Value, Value) -> Value): (r: Value)
      ensures r == WithNodeMetadata(deepMerge(deepMerge(deepMerge(synthesized, snakeCase(Obj(MetaArgumentsObject(meta)))),
                                                        Obj(provisionerField)), Obj(rawOverrides)), nodeMetadata)
    {
      StackSynthesis.MergeThree(deepMerge, synthesized, snakeCase(Obj(MetaArgumentsObject(meta))), Obj(provisionerField),
                                Obj(rawOverrides));
      WithNodeMetadata(StackSynthesis.MergeAll(deepMerge, synthesized,
                         [snakeCase(Obj(MetaArgumentsObject(meta))), Obj(provisionerField), Obj(rawOverrides)]),
                       nodeMetadata)
    }

    /**
     * `toTerraform()`: the resource block unless the resource was moved away,
     * the moved block, and the import block addressed to this resource.
     * The subclass's processed attributes, the element's raw overrides, its
     * node metadata, `keysToSnakeCase`, `deepMerge` and the move-target
     * registry are parameters.
     */
    function ToTerraform(synthesized: Value, rawOverrides: map<string, Value>, nodeMetadata: map<string, Value>,
                         snakeCase: Value -> Value, deepMerge: (Value, Value) -> Value,
                         targets: map<string, ResourceAddress>): (r: Result<Fragment, Error>)
      reads this
      ensures MetaArgumentsOf().Failure? ==> r == Failure(MetaArgumentsOf().error)
      ensures MetaArgumentsOf().Success? && BuildMovedBlock(targets).Failure? ==> r == Failure(BuildMovedBlock(targets).error)
      ensures r.Success? <==> MetaArgumentsOf().Success? && BuildMovedBlock(targets).Success?
      ensures r.Success? ==>
        && (r.value.resource.Some? <==> !hasMoved)
        && (r.value.resource.Some? ==>
              r.value.resource.value.resourceType == terraformResourceType
              && r.value.resource.value.friendlyUniqueId == friendlyUniqueId
              && r.value.resource.value.attributes
                 == Attributes(synthesized, ProvisionerField(snakeCase, provisioners), MetaArgumentsOf().value,
                               rawOverrides, nodeMetadata, snakeCase, deepMerge))
        && r.value.moved == BuildMovedBlock(targets).value
        && (r.value.importEntry.Some? <==> imported.Some?)
        && (imported.Some? ==> r.value.importEntry.value == ImportEntry(
              if imported.value.provider.Some? then Some(imported.value.provider.value.fqn) else None,
              imported.value.id, Address()))
    {
      var meta :- MetaArgumentsOf();
      var attributes := Attributes(synthesized, ProvisionerField(snakeCase, provisioners), meta,
                                   rawOverrides, nodeMetadata, snakeCase, deepMerge);
      var moved :- BuildMovedBlock(targets);
      Success(Fragment(
        if hasMoved then None else Some(ResourceBlock(terraformResourceType, friendlyUniqueId, attributes)),
        moved,
        match imported
        case None => None
        case Some(imp) => Some(ImportEntry(if imp.provider.Some? then Some(imp.provider.value.fqn) else None, imp.id, Address()))))
    }

    /**
     * `toHclTerraform()`: the same fragment with the HCL rendering hints; the
     * subclass's HCL attributes and the HCL provisioner blocks go into the
     * merge.
     */
    function ToHclTerraform(synthesized: Value, rawOverrides: map<string, Value>, nodeMetadata: map<string, Value>,
                            snakeCase: Value -> Value, deepMerge: (Value, Value) -> Value,
                            targets: map<string, ResourceAddress>): (r: Result<HclFragment, Error>)
      reads this
      ensures r.Success? ==> MetaArgumentsOf().Success?
      ensures r.Success? && r.value.resource.Some? ==>
        (r.value.resource.value.attributes
         == Attributes(synthesized, HclProvisionerField(snakeCase, provisioners), MetaArgumentsOf().value,
                       rawOverrides, nodeMetadata, snakeCase, deepMerge))
    {
      var meta :- MetaArgumentsOf();
      var attributes := Attributes(synthesized, HclProvisionerField(snakeCase, provisioners), meta,
                                   rawOverrides, nodeMetadata, snakeCase, deepMerge);
      var moved :- BuildMovedBlock(targets);
      Success(HclFragment(
        if hasMoved then None else Some(ResourceBlock(terraformResourceType, friendlyUniqueId, attributes)),
        match moved
        case None => None
        case Some(pair) => Some(HclMoved(Hinted(pair.to, Some(false), "simple", "reference"),
                                         Hinted(pair.from, Some(false), "simple", "reference"))),
        match imported
        case None => None
        case Some(imp) => Some(HclImport(Reference(Address()), Hinted(imp.id, None, "simple", "string"),
                                         if imp.provider.Some? then Some(Reference(imp.provider.value.fqn)) else None))))
    }

    /**
     * `toMetadata()`: the override keys, the import and the move, each listed
     * under the resource type only when present.
     */
    function ToMetadata(overrideKeys: seq<string>): (r: Value)
      reads this
      ensures r.Obj? && r.fields.Keys <= {"overrides", "imports", "moved"}
      ensures ("overrides" in r.fields <==> |overrideKeys| > 0)
      ensures |overrideKeys| > 0 ==> r.fields["overrides"] == Obj(map[terraformResourceType := Arr(Strs(overrideKeys))])
      ensures ("imports" in r.fields <==> imported.Some?)
      ensures imported.Some? ==> r.fields["imports"] == Obj(map[terraformResourceType := Arr([Str(friendlyUniqueId)])])
      ensures ("moved" in r.fields <==> HasResourceMove())
      ensures HasResourceMove() ==> r.fields["moved"] == Obj(map[terraformResourceType := Arr([Str(friendlyUniqueId)])])
    {
      var own := Obj(map[terraformResourceType := Arr([Str(friendlyUniqueId)])]);
      var m0: map<string, Value> := map[];
      var m1 := if |overrideKeys| > 0 then m0["overrides" := Obj(map[terraformResourceType := Arr(Strs(overrideKeys))])] else m0;
      var m2 := if imported.Some? then m1["imports" := own] else m1;
      Obj(if HasResourceMove() then m2["moved" := own] else m2)
    }

    /**
     * `interpolationForAttribute(attribute)`: a reference, in this resource's
     * stack, to `type.friendlyUniqueId.attribute`, with `.*` before the
     * attribute when `forEach` is set.
     */
    function InterpolationForAttribute(attribute: string): (r: (string, string))
      reads this
      ensures r.1 == stackPath
      ensures r.0 == Strings.Join([terraformResourceType, friendlyUniqueId] + (if forEach.Some? then ["*"] else []) + [attribute], ".")
    {
      var identifier := Address() + (if forEach.Some? then ".*" else "") + "." + attribute;
      JoinAttributePath(terraformResourceType, friendlyUniqueId, forEach.Some?, attribute);
      (identifier, stackPath)
    }

    /**
     * `moveTo(moveTarget, index)`: fails if a move by target was recorded
     * already; otherwise records it and hides the resource.
     */
    method MoveTo(moveTarget: string, index: MoveIndex) returns (r: Outcome<Error>)
      requires Valid()
      modifies this
      ensures Valid()
      ensures old(movedByTarget).Some? ==>
        r == Fail(TwoMovesByTarget(friendlyUniqueId, old(movedByTarget).value.moveTarget, moveTarget)) && unchanged(this)
      ensures old(movedByTarget).None? ==>
        r == Pass && movedByTarget == Some(MoveByTarget(moveTarget, index)) && hasMoved
        && movedById == old(movedById) && CurrentSettings() == old(CurrentSettings())
    {
      if movedByTarget.Some? {
        return Fail(TwoMovesByTarget(friendlyUniqueId, movedByTarget.value.moveTarget, moveTarget));
      }
      movedByTarget := Some(MoveByTarget(moveTarget, index));
      hasMoved := true;
      r := Pass;
    }

    /**
     * `moveToId(id)`: fails if a move by id was recorded already, passing
     * the existing pair with `to` and `from` swapped as the source does;
     * otherwise records the move from this resource's address to `id` and
     * hides the resource.
     */
    method MoveToId(id: string) returns (r: Outcome<Error>)
      requires Valid()
      modifies this
      ensures Valid()
      ensures old(movedById).Some? ==>
        r == Fail(TwoMovesById(nodeId, AddressPair(old(movedById).value.from, old(movedById).value.to), AddressPair(id, Address())))
        && unchanged(this)
      ensures old(movedById).None? ==>
        r == Pass && movedById == Some(AddressPair(id, Address())) && hasMoved
        && movedByTarget == old(movedByTarget) && CurrentSettings() == old(CurrentSettings())
    {
      if movedById.Some? {
        return Fail(TwoMovesById(nodeId, AddressPair(movedById.value.from, movedById.value.to), AddressPair(id, Address())));
      }
      movedById := Some(AddressPair(id, Address()));
      hasMoved := true;
      r := Pass;
    }

    /**
     * `moveFromId(id)`: fails exactly as `moveToId` does; otherwise records
     * the move from `id` to this resource's address, leaving the resource
     * shown.
     */
    method MoveFromId(id: string) returns (r: Outcome<Error>)
      requires Valid()
      modifies this
      ensures Valid()
      ensures old(movedById).Some? ==>
        r == Fail(TwoMovesById(nodeId, AddressPair(old(movedById).value.from, old(movedById).value.to), AddressPair(id, Address())))
        && unchanged(this)
      ensures old(movedById).None? ==>
        r == Pass && movedById == Some(AddressPair(Address(), id)) && hasMoved == old(hasMoved)
        && movedByTarget == old(movedByTarget) && CurrentSettings() == old(CurrentSettings())
    {
      if movedById.Some? {
        return Fail(TwoMovesById(nodeId, AddressPair(movedById.value.from, movedById.value.to), AddressPair(id, Address())));
      }
      movedById := Some(AddressPair(Address(), id));
      r := Pass;
    }

    /**
     * `importFrom(id, provider)`: records the import (replacing an earlier
     * one) and adds the Terraform >=1.5 version validation to the node.
     */
    method ImportFrom(id: string, importProvider: Option<Provider>)
      requires Valid()
      modifies this
      ensures Valid()
      ensures imported == Some(Import(id, importProvider))
      ensures validations == old(validations) + [RequireTerraformVersion(">=1.5", ImportVersionMessage)]
      ensures dependsOn == old(dependsOn) && count == old(count) && provider == old(provider) && lifecycle == old(lifecycle)
      ensures forEach == old(forEach) && provisioners == old(provisioners) && connection == old(connection)
      ensures movedByTarget == old(movedByTarget) && movedById == old(movedById) && hasMoved == old(hasMoved)
    {
      imported := Some(Import(id, importProvider));
      validations := validations + [RequireTerraformVersion(">=1.5", ImportVersionMessage)];
    }
  }

  /** The dotted attribute path is the join of its segments. */
  lemma JoinAttributePath(a: string, b: string, splat: bool, attribute: string)
    ensures a + "." + b + (if splat then ".*" else "") + "." + attribute
         == Strings.Join([a, b] + (if splat then ["*"] else []) + [attribute], ".")
  {
    if splat {
      var parts := [a, b, "*", attribute];
      assert [a, b] + ["*"] + [attribute] == parts;
      assert parts[1..] == [b, "*", attribute] && parts[1..][1..] == ["*", attribute];
      assert Strings.Join(["*", attribute], ".") == "*" + "." + attribute;
      assert Strings.Join(parts, ".") == a + "." + (b + "." + ("*" + "." + attribute));
    } else {
      var parts := [a, b, attribute];
      assert [a, b] + [] + [attribute] == parts;
      assert parts[1..] == [b, attribute];
      assert Strings.Join([b, attribute], ".") == b + "." + attribute;
      assert Strings.Join(parts, ".") == a + "." + (b + "." + attribute);
    }
  }

  // ---------------------------------------------------------------- properties of the fragment

  /**
   * A resource hidden from its fragment is never lost silently: when the
   * fragment is produced without the resource block, it carries a moved
   * block whose `from` is the resource's own address.
   */
  lemma HiddenResourceIsMoved(res: TerraformResource, synthesized: Value, rawOverrides: map<string, Value>,
                              nodeMetadata: map<string, Value>, snakeCase: Value -> Value,
                              deepMerge: (Value, Value) -> Value, targets: map<string, ResourceAddress>)
    requires res.Valid()
    requires res.ToTerraform(synthesized, rawOverrides, nodeMetadata, snakeCase, deepMerge, targets).Success?
    requires res.ToTerraform(synthesized, rawOverrides, nodeMetadata, snakeCase, deepMerge, targets).value.resource.None?
    ensures
      var f := res.ToTerraform(synthesized, rawOverrides, nodeMetadata, snakeCase, deepMerge, targets).value;
      f.moved.Some? && f.moved.value.from == res.Address()
  {
  }

  /**
   * A resource still shown keeps its block, and any moved block it carries
   * (one recorded by `moveFromId`) moves something to its own address.
   */
  lemma ShownResourceIsMoveDestination(res: TerraformResource, synthesized: Value, rawOverrides: map<string, Value>,
                                       nodeMetadata: map<string, Value>, snakeCase: Value -> Value,
                                       deepMerge: (Value, Value) -> Value, targets: map<string, ResourceAddress>)
    requires res.Valid() && !res.hasMoved
    requires res.ToTerraform(synthesized, rawOverrides, nodeMetadata, snakeCase, deepMerge, targets).Success?
    ensures
      var f := res.ToTerraform(synthesized, rawOverrides, nodeMetadata, snakeCase, deepMerge, targets).value;
      f.resource.Some? && (f.moved.Some? ==> f.moved.value.to == res.Address())
  {
  }

  /**
   * The HCL and JSON forms agree: they fail together with the same error,
   * show the resource together, and carry the same moved and import
   * addresses once the rendering hints are stripped.
   */
  lemma HclAgreesWithJson(res: TerraformResource, synthesized: Value, hclSynthesized: Value,
                          rawOverrides: map<string, Value>, nodeMetadata: map<string, Value>,
                          snakeCase: Value -> Value, deepMerge: (Value, Value) -> Value,
                          targets: map<string, ResourceAddress>)
    ensures
      var json := res.ToTerraform(synthesized, rawOverrides, nodeMetadata, snakeCase, deepMerge, targets);
      var hcl := res.ToHclTerraform(hclSynthesized, rawOverrides, nodeMetadata, snakeCase, deepMerge, targets);
      && (json.Success? <==> hcl.Success?)
      && (json.Failure? ==> hcl.error == json.error)
      && (json.Success? ==>
            && hcl.value.resource.Some? == json.value.resource.Some?
            && (hcl.value.moved.Some? <==> json.value.moved.Some?)
            && (json.value.moved.Some? ==>
                  hcl.value.moved.value.to.value == json.value.moved.value.to
                  && hcl.value.moved.value.from.value == json.value.moved.value.from)
            && (hcl.value.importEntry.Some? <==> json.value.importEntry.Some?)
            && (json.value.importEntry.Some? ==>
                  var h, j := hcl.value.importEntry.value, json.value.importEntry.value;
                  h.to.value == j.to && h.id.value == j.id
                  && (h.provider.Some? <==> j.provider.Some?)
                  && (j.provider.Some? ==> h.provider.value.value == j.provider.value)))
  {
  }

  /**
   * A move by target never changes the resource type: both addresses of a
   * built block start with the resource's own type segment.
   */
  lemma MoveKeepsResourceType(res: TerraformResource, moved: MoveByTarget, targets: map<string, ResourceAddress>)
    requires '.' !in res.terraformResourceType
    requires res.BuildMovedBlockByTarget(moved, targets).Success?
    ensures
      var pair := res.BuildMovedBlockByTarget(moved, targets).value;
      Strings.Split(pair.to, '.')[0] == res.terraformResourceType
      && Strings.Split(pair.from, '.')[0] == res.terraformResourceType
  {
    var pair := res.BuildMovedBlockByTarget(moved, targets).value;
    var rest := targets[moved.moveTarget].friendlyUniqueId + IndexSuffix(moved.index);
    assert pair.to == res.terraformResourceType + "." + rest;
    FirstSegment(res.terraformResourceType, rest);
    FirstSegment(res.terraformResourceType, res.friendlyUniqueId);
  }

  /** The first dot segment of `a.t`, for a dot-free `a`, is `a`. */
  lemma FirstSegment(a: string, t: string)
    requires '.' !in a
    ensures Strings.Split(a + "." + t, '.')[0] == a
  {
    assert a + "." + t == a + ("." + t);
    Strings.SplitPrefix(a, "." + t, '.');
    assert ("." + t)[0] == '.';
    assert a + "" == a;
  }

  /**
   * An attribute reference of a resource whose type, id and attribute hold
   * no dot splits back into those parts (with `*` between for `forEach`).
   */
  lemma InterpolationSplitsBack(res: TerraformResource, attribute: string)
    requires '.' !in res.terraformResourceType && '.' !in res.friendlyUniqueId && '.' !in attribute
    ensures Strings.Split(res.InterpolationForAttribute(attribute).0, '.')
         == [res.terraformResourceType, res.friendlyUniqueId] + (if res.forEach.Some? then ["*"] else []) + [attribute]
  {
    var parts := [res.terraformResourceType, res.friendlyUniqueId] + (if res.forEach.Some? then ["*"] else []) + [attribute];
    assert forall i :: 0 <= i < |parts| ==> '.' !in parts[i];
    Strings.SplitJoin(parts, '.');
  }
}
