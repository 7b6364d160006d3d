# terraform-cdk synthesis core, modelled in Dafny

This project models the bookkeeping at the heart of terraform-cdk's synthesis
engine and proves properties of it:

- **`TerraformResource`** (`terraform_resource.dfy`). A resource records moves by target and by id, and imports. It builds its meta-arguments, which forbid `count` together with `forEach`. It turns a recorded move into one `{to, from}` moved block. It contributes a JSON or HCL fragment to its stack's document: the `resource` block is left out once the resource has moved away, and it adds `moved` and `import` entries. It also builds its metadata and the reference string for one of its attributes.
- **`TerraformStack`** (`terraform_stack.dfy`, `stack_synthesis.dfy`, `stack_dependencies.dfy`). The stack checks its id: glob characters first, then whitespace. It keeps raw overrides under dot-separated paths and two memoising cross-stack registries. It folds its elements into a document. The construct tree is a datatype (`construct_tree.dfy`). On it the model defines:
  - `terraformElements`, a pre-order traversal that skips nested stacks;
  - `TerraformStack.of` and `allocateLogicalId`;
  - `runAllValidations`;
  - the output index.

  The stacks' `dependencies` lists form a graph with `dependsOn` (reachability) and `addDependency` (refuses a cycle).
- **Dependable trait** (`dependency.dfy`). A registry maps each instance to its registered trait, and a lookup for an instance with no trait fails. `ConcreteDependable` registers a live view of the roots it accumulates.

Supporting modules:
- `wrappers.dfy`: `Option`, `Result` and `Outcome`, for optional values and thrown errors.
- `errors.dfy`: the thrown errors, carrying the arguments the source passes to its error factories.
- `strings.dfy`: `split`, `join` and integer rendering.
- `values.dfy`: a JSON-like `Value` and the `addOverride` path update.

The collaborators that live outside the core are parameters of the functions that use them:
- `makeUniqueId`;
- `deepMerge`;
- `resolve`;
- `keysToSnakeCase`;
- a subclass's processed attributes;
- `constructNodeMetadata`;
- the move-target registry, a map from move target to resource address;
- `dependable()`.

## Model

| member | source | states |
|---|---|---|
| TerraformResources.LifecycleToTerraform | packages/cdktf/lib/terraform-resource.ts:70-91 | An absent lifecycle stays absent. Every other field is kept. A present `replaceTriggeredBy` keeps its length, entry i becomes the string or fqn of entry i, and afterwards all entries are strings. |
| TerraformResources.LifecycleToTerraformIdempotent | packages/cdktf/lib/terraform-resource.ts:70-91 | Preparing an already prepared lifecycle changes nothing. |
| TerraformResources.LifecycleObject | packages/cdktf/lib/terraform-resource.ts:56-63 | The object form of a lifecycle holds a key exactly where the lifecycle field of that name is set, and that field's value under it. |
| TerraformResources.LifecycleObjectFields | packages/cdktf/lib/terraform-resource.ts:56-63 | Field by field: only lifecycle keys appear. A set boolean appears as itself. `ignoreChanges` appears as "all" or as the attribute list. Each trigger of `replaceTriggeredBy` is serialized in order. Pre- and postconditions appear as lists. |
| TerraformResources.TriggerValue | packages/cdktf/lib/terraform-resource.ts:60 | A string trigger is serialized as itself. A dependable that was not converted stays an object, so it is never a string. |
| TerraformResources.PreparedTriggersAreStrings | packages/cdktf/lib/terraform-resource.ts:70-91 | After `lifecycleToTerraform`, trigger i is serialized as the string or fqn of trigger i. For a dependable this differs from the unconverted entry, so the conversion shows in the document. |
| TerraformResources.MetaArgumentsObject | packages/cdktf/lib/terraform-resource.ts:234-243 | The meta-arguments object holds a key exactly where that meta-argument is set, and its rendered value under it. |
| TerraformResources.MetaArgumentsObjectFields | packages/cdktf/lib/terraform-resource.ts:234-243 | Argument by argument: only the six meta-argument keys appear. `dependsOn` appears as the list of ids, `count` as the rendered count, `provider` as its fqn, `lifecycle` as its object form, and `forEach` and `connection` as given. |
| Values.Strs | packages/cdktf/lib/terraform-resource.ts:380-383 | A list of strings becomes a list of string values of the same length, in order. |
| TerraformResources.IndexSuffix | packages/cdktf/lib/terraform-resource.ts:441-445 | The suffix is empty exactly for a falsy index (absent, `""` or `0`). A string index gives `["s"]`. A number gives `[n]` in decimal. |
| TerraformResources.WithNodeMetadata | packages/cdktf/lib/terraform-resource.ts:269-272 | The attributes gain a "//" key and no other key; every other attribute is kept. "//" holds exactly the node-metadata keys plus those it held before. Node metadata wins on a shared key, and the other earlier entries are kept. |
| TerraformResources.ProvisionerField | packages/cdktf/lib/terraform-resource.ts:261-265 | The only key is `provisioner`, present exactly when there are provisioners. Its entry i is `{type_i: snakeCase(props_i)}`, in order. |
| TerraformResources.HclProvisionerField | packages/cdktf/lib/terraform-resource.ts:307-316 | The only key is `provisioner`, present exactly when there are provisioners. Its entry i is `{type_i: {isBlock: true, type: "list", storageClassType: "object", value: snakeCase(props_i)}}`, in order. |
| TerraformResources.ListBlock | packages/cdktf/lib/terraform-resource.ts:309-314 | The hint object has exactly `isBlock` true, `type` "list", `storageClassType` "object" and the value. |
| TerraformResources.Reference | packages/cdktf/lib/terraform-resource.ts:355-358 | The HCL hint for a reference: a simple value of storage class "reference". |
| TerraformResources.TerraformResource.constructor | packages/cdktf/lib/terraform-resource.ts:155-172 | The configuration's meta-arguments are stored, with `dependsOn` mapped element-wise through `dependable`. Nothing is moved or imported, and the move invariant holds. |
| TerraformResources.TerraformResource.MetaArgumentsOf | packages/cdktf/lib/terraform-resource.ts:228-244 | Fails with the both-set error, carrying the node path, exactly when `forEach` and `count` are both set (a count of 0 included). Otherwise returns the meta-arguments: the count unwrapped, the provider's fqn, the lifecycle prepared, and never both count and forEach. |
| TerraformResources.TerraformResource.HasResourceMove | packages/cdktf/lib/terraform-resource.ts:180-182 | True exactly when a move by id or by target is recorded. A resource that is still shown and has a move is the destination of a move by id. |
| TerraformResources.TerraformResource.BuildMovedBlockByTarget | packages/cdktf/lib/terraform-resource.ts:429-448 | A target missing from the registry fails. A target of another resource type fails with the different-type error. Otherwise `from` is the resource's own address and `to` is the target's address plus the index suffix, which starts with the same type. |
| TerraformResources.TerraformResource.BuildMovedBlock | packages/cdktf/lib/terraform-resource.ts:450-467 | Covers the four outcomes: both moves set give the combined error; only by-target resolves the target; only by-id returns the stored pair; neither gives no block. A block exists exactly when `hasResourceMove()` holds. |
| TerraformResources.TerraformResource.Attributes | packages/cdktf/lib/terraform-resource.ts:257-272 | The processed attributes, then the snake-cased meta-arguments, the provisioner part and the raw overrides are deep-merged from left to right, and the node metadata goes under "//". |
| StackSynthesis.MergeThree | packages/cdktf/lib/terraform-resource.ts:257-267 | Merging three sources onto a start merges them one after another, from left to right. |
| TerraformResources.TerraformResource.ToTerraform | packages/cdktf/lib/terraform-resource.ts:257-301 | A meta-argument error is raised first, then any moved-block error. On success, the resource block, with the ordered attribute merge, is present exactly when the resource has not moved away. The moved entry is the built block. An import entry exists exactly when an import was recorded, and its `to` is the resource's own address. |
| TerraformResources.TerraformResource.ToHclTerraform | packages/cdktf/lib/terraform-resource.ts:303-376 | On success the meta-arguments succeeded, and the resource block holds the merge with the HCL provisioner blocks. |
| TerraformResources.HclAgreesWithJson | packages/cdktf/lib/terraform-resource.ts:257-376 | The HCL and JSON fragments fail together with the same error and show the resource together. Their moved and import entries carry the same addresses once the hints are removed. |
| TerraformResources.HiddenResourceIsMoved | packages/cdktf/lib/terraform-resource.ts:274-290 | A fragment without its resource block carries a moved block whose `from` is the resource's own address. |
| TerraformResources.ShownResourceIsMoveDestination | packages/cdktf/lib/terraform-resource.ts:521-536 | A resource that did not move away keeps its block. Any moved block it carries, which only `moveFromId` records, moves something to its own address. |
| TerraformResources.TerraformResource.ToMetadata | packages/cdktf/lib/terraform-resource.ts:378-397 | Only `overrides`, `imports` and `moved` can appear. `overrides` lists the override keys under the type and is present only when there are keys. `imports` and `moved` list `[friendlyUniqueId]` under the type, each present exactly when an import or a move is recorded. |
| TerraformResources.TerraformResource.InterpolationForAttribute | packages/cdktf/lib/terraform-resource.ts:399-406 | The reference is made in the resource's stack. Its expression joins type, id, `*` when `forEach` is set, and the attribute with dots. |
| TerraformResources.JoinAttributePath | packages/cdktf/lib/terraform-resource.ts:401-403 | The template string equals the dot-join of its segments. |
| TerraformResources.InterpolationSplitsBack | packages/cdktf/lib/terraform-resource.ts:399-406 | When the segments hold no dot, splitting the reference expression on dots gives back exactly the segments. |
| TerraformResources.MoveKeepsResourceType | packages/cdktf/lib/terraform-resource.ts:434-446 | Both addresses of a move by target have the resource's own type as their first dot segment. |
| TerraformResources.FirstSegment | packages/cdktf/lib/terraform-resource.ts:443-446 | The first dot segment of `type.rest`, for a dot-free type, is the type. |
| TerraformResources.TerraformResource.MoveTo | packages/cdktf/lib/terraform-resource.ts:474-484 | A second call always fails with the two-moves-by-target error (friendly id, old target, new target), even for the same target, and changes nothing. The first call records the target and index, sets `hasMoved`, and changes nothing else. |
| TerraformResources.TerraformResource.MoveToId | packages/cdktf/lib/terraform-resource.ts:498-515 | Fails once any move by id exists, passing the existing pair with `to` and `from` swapped, and changes nothing. Otherwise records `{to: id, from: own address}`, sets `hasMoved`, and changes nothing else. |
| TerraformResources.TerraformResource.MoveFromId | packages/cdktf/lib/terraform-resource.ts:521-536 | Fails exactly as `moveToId` does. Otherwise records `{to: own address, from: id}` and leaves `hasMoved` and everything else unchanged. |
| TerraformResources.TerraformResource.ImportFrom | packages/cdktf/lib/terraform-resource.ts:408-416 | Records the import, replacing an earlier one, and appends the `>=1.5` version validation. Nothing else changes. |
| TerraformStacks.GlobCheckFrom | packages/cdktf/lib/terraform-stack.ts:57-63 | Passes exactly when no glob character is in the id. Otherwise fails naming the first glob character, in list order, that the id contains. |
| TerraformStacks.ThrowIfIdIsGlobCharacter | packages/cdktf/lib/terraform-stack.ts:57-63 | Passes exactly when the id holds no character of `* ? [ ] { } !`. Otherwise fails naming the first of them, in that order, that the id holds. |
| TerraformStacks.ThrowIfIdContainsWhitespace | packages/cdktf/lib/terraform-stack.ts:66-70 | Fails with the whitespace error exactly when some character is in JavaScript's `\s` class. |
| TerraformStacks.ValidateStackId | packages/cdktf/lib/terraform-stack.ts:86-87 | Passes exactly when the id has neither glob characters nor whitespace. A glob character wins over whitespace, and the error names the first one in list order. Whitespace alone gives the whitespace error. |
| TerraformStacks.Create | packages/cdktf/lib/terraform-stack.ts:84-87 | Fails, with the check's own error, exactly when the id check fails. Otherwise gives a fresh stack with empty registries. |
| TerraformStacks.TerraformStack.constructor | packages/cdktf/lib/terraform-stack.ts:74-80 | A new stack has empty overrides and registries, and its invariant holds. |
| TerraformStacks.TerraformStack.AddOverride | packages/cdktf/lib/terraform-stack.ts:159-183 | Rewrites the raw overrides to exactly `SetPath(old, split(path, "."), value)`. The top-level key list grows by the first part only when that key is new. The registries are untouched. |
| Values.StorePath | packages/cdktf/lib/terraform-stack.ts:159-183 | The loop walks down the parts, stores the value under the last part and writes every level back. The result is exactly `SetPath(root, parts, value)`. |
| Values.DescendSnoc | packages/cdktf/lib/terraform-stack.ts:168-178 | Walking one more part is one more step of the walk: the object under that part, or `{}` when none is there. |
| Values.SetPathFromLevel | packages/cdktf/lib/terraform-stack.ts:168-182 | Setting the rest of the path from one level puts the update of the next level back under this level's part. |
| Values.SetPath | packages/cdktf/lib/terraform-stack.ts:159-183 | Sets the first key and keeps the other top-level keys. A single part sets the value there. An intermediate that is not an object (missing, null, array, scalar) becomes an object whose only key is the next part. An object intermediate keeps its keys. |
| Values.GetAfterSet | packages/cdktf/lib/terraform-stack.ts:159-183 | After `addOverride(p, v)`, reading path `p` gives `v`. |
| Values.SetKeepsOtherPaths | packages/cdktf/lib/terraform-stack.ts:159-183 | A path that leaves `p` at some level through existing objects reads the same value before and after. |
| TerraformStacks.TerraformStack.RegisterOutgoingCrossStackReference | packages/cdktf/lib/terraform-stack.ts:398-414 | Every call with `k` returns the same output: id `cross-stack-output-<k>`, sensitive, referring to `k` in this stack. It is created and recorded only on the first call. |
| TerraformStacks.OutgoingOutput | packages/cdktf/lib/terraform-stack.ts:403-410 | The output is sensitive, refers to the identifier, and its construct id is the prefix followed by the identifier. |
| TerraformStacks.OutgoingOutputInjective | packages/cdktf/lib/terraform-stack.ts:403-410 | Different identifiers give outputs with different construct ids. |
| TerraformStacks.OneOutputPerIdentifier | packages/cdktf/lib/terraform-stack.ts:398-414 | The created outputs have pairwise distinct construct ids, and every memoised output is among them. |
| TerraformStacks.TerraformStack.CreatedOutputs | packages/cdktf/lib/terraform-stack.ts:76 | One created output per recorded identifier. |
| TerraformStacks.TerraformStack.RegisterIncomingCrossStackReference | packages/cdktf/lib/terraform-stack.ts:416-431 | A hit under `String(fromStack)` returns the stored source and changes nothing. Otherwise it creates the source `cross-stack-reference-input-<path>` for the producer path and stores it under that path. A producer with a non-empty path always gets the source for that path, which is then stored. |
| TerraformStacks.ConstructString | packages/cdktf/lib/terraform-stack.ts:417-418 | `String(construct)` is the path when the path is non-empty, and is never empty. |
| TerraformStacks.IncomingSource | packages/cdktf/lib/terraform-stack.ts:423-427 | The remote state is asked for by the consumer, for the producer path, under the construct id "cross-stack-reference-input-" followed by that path. |
| TerraformStacks.BaseMetadata | packages/cdktf/lib/terraform-stack.ts:351-359 | The metadata has exactly `version`, `stackName` (the node id) and `backend` "local", plus `overrides` `{stack: keys}` exactly when the stack has override keys. |
| TerraformStacks.ResolveEach | packages/cdktf/lib/terraform-stack.ts:363 | Each element maps to its resolved value, in element order. |
| TerraformStacks.StackHeader | packages/cdktf/lib/terraform-stack.ts:361-386 | The "//" part holds exactly `metadata` and `outputs`. `metadata` is the base metadata with every element's resolved metadata deep-merged in element order. `outputs` is the output index. |
| TerraformStacks.FragmentsOf | packages/cdktf/lib/terraform-stack.ts:388 | On success there is one resolved fragment per element, in order. On failure the error is that of the first element whose fragment fails. |
| TerraformStacks.FirstFailureShifts | packages/cdktf/lib/terraform-stack.ts:388 | A first failure in the rest of the list, after a successful first element, is the first failure of the whole list. |
| TerraformStacks.FragmentsFailWithFirstError | packages/cdktf/lib/terraform-stack.ts:388 | When element i fails and all before it succeed, the fragments fail with element i's error. |
| TerraformStacks.StackDocument | packages/cdktf/lib/terraform-stack.ts:386-395 | The document: the header, then the fragments deep-merged in order, then the raw overrides, all resolved. It is the specification of the stack's `toTerraform`. |
| TerraformStacks.MergeInOrder | packages/cdktf/lib/terraform-stack.ts:388-391 | The loop deep-merges the values onto the start one after another, in order. |
| TerraformStacks.TerraformStack.ToTerraform | packages/cdktf/lib/terraform-stack.ts:348-396 | Fails exactly when some element's `toTerraform` fails, with the first such error in element order. Otherwise the document is the header, then every element's resolved fragment in element order, then the raw overrides, all resolved. The node walked is the stack's own node, whose id is the stack name. |
| StackSynthesis.Elements | packages/cdktf/lib/terraform-stack.ts:482-500 | The start node comes first when it is an element. Otherwise the result is the children's elements. |
| StackSynthesis.ElementsOfAppend | packages/cdktf/lib/terraform-stack.ts:491-497 | The children's elements of `a + b` are those of `a` followed by those of `b`. |
| StackSynthesis.ElementsOfSnoc | packages/cdktf/lib/terraform-stack.ts:491-497 | Visiting one more child adds that child's elements, or nothing when the child is a nested stack. |
| StackSynthesis.CollectElements | packages/cdktf/lib/terraform-stack.ts:482-500 | The loop appends to `into` exactly the pre-order, declaration-order elements. |
| StackSynthesis.ElementsSound | packages/cdktf/lib/terraform-stack.ts:482-500 | Every listed node is an element reached without entering a nested stack. |
| StackSynthesis.ElementsOfSound | packages/cdktf/lib/terraform-stack.ts:491-497 | The same for a list of children. |
| StackSynthesis.ElementsComplete | packages/cdktf/lib/terraform-stack.ts:482-500 | Every element reachable without entering a nested stack is listed. |
| StackSynthesis.ElementsOfComplete | packages/cdktf/lib/terraform-stack.ts:491-497 | The same for a list of children. |
| StackSynthesis.HasResourceMove | packages/cdktf/lib/terraform-stack.ts:471-478 | True exactly when some resource reached without entering a nested stack has a recorded move. |
| StackSynthesis.IsMovedResource | packages/cdktf/lib/terraform-stack.ts:473 | The test a single element has to pass. |
| StackSynthesis.Lookup | packages/cdktf/lib/terraform-stack.ts:107-127 | The walk up from scope k finds the nearest stack at or above k. It fails exactly when there is none, with the construct's path and the App hint when the construct sits directly under an App root. |
| StackSynthesis.StackOf | packages/cdktf/lib/terraform-stack.ts:103-128 | `TerraformStack.of`: the nearest enclosing stack, or the no-stack error exactly when there is none. |
| StackSynthesis.AllocateLogicalId | packages/cdktf/lib/terraform-stack.ts:197-209 | "" when no scope lies below the stack. Otherwise `makeUniqueId` of the ids of the scopes below the stack, in order. |
| StackSynthesis.ElementLogicalId | packages/cdktf/lib/terraform-stack.ts:197-209 | Fails exactly when there is no stack. Gives "" for the stack itself. Otherwise gives `makeUniqueId` of the ids of the scopes strictly below the nearest stack. |
| StackSynthesis.NodeErrors | packages/cdktf/lib/terraform-stack.ts:457-461 | Each validation message of a node is paired with the node's path, in order. |
| StackSynthesis.CollectedErrors | packages/cdktf/lib/terraform-stack.ts:457-462 | Every collected error comes from some node, and every error of every node is collected. |
| StackSynthesis.CollectedErrorsEmpty | packages/cdktf/lib/terraform-stack.ts:457-462 | The collected list is empty exactly when no node has a message. |
| StackSynthesis.CollectedErrorsCount | packages/cdktf/lib/terraform-stack.ts:457-462 | Nothing short-circuits: the list holds as many errors as there are messages across all nodes. |
| StackSynthesis.FormatErrors | packages/cdktf/lib/terraform-stack.ts:463-466 | Each error becomes one `[path] message` line, in order. |
| StackSynthesis.RunAllValidations | packages/cdktf/lib/terraform-stack.ts:456-469 | Passes exactly when no node of the tree has a validation message. It fails with every line joined by `"\n  "`. |
| StackSynthesis.Nest | packages/cdktf/lib/terraform-stack.ts:375-380 | The nested object for a path has exactly the path's first part as its key. |
| StackSynthesis.NestStepWraps | packages/cdktf/lib/terraform-stack.ts:375-380 | One `reduceRight` step wraps a nesting in one more part. The result is the nesting of the longer path. |
| StackSynthesis.ReduceRightOntoNest | packages/cdktf/lib/terraform-stack.ts:375-380 | Folding the first `k` parts from the right onto the nesting of the remaining parts gives the nesting of the whole path. |
| StackSynthesis.ReduceRightIsNest | packages/cdktf/lib/terraform-stack.ts:375-380 | The `reduceRight` from `{}` builds the nesting of the path. |
| StackSynthesis.NestLeadsToLeaf | packages/cdktf/lib/terraform-stack.ts:375-380 | Following the path through the nesting reaches the friendly unique id. |
| StackSynthesis.OutputEntryLeadsToId | packages/cdktf/lib/terraform-stack.ts:368-384 | An output's entry, read along the parts of its node path, gives its friendly unique id. |
| StackSynthesis.OutputIndex | packages/cdktf/lib/terraform-stack.ts:368-384 | The loop deep-merges the entries of exactly the outputs, in element order. |
| ConstructTree.PathIds | packages/cdktf/lib/terraform-stack.ts:375 | Path segments are non-empty node ids. Every non-empty id is a segment, and there are no more segments than scopes. |
| ConstructTree.PathIdsAppend | packages/cdktf/lib/terraform-stack.ts:375 | The path of a longer scope chain is the path of its first part followed by the path of the rest, so ids keep their order. |
| ConstructTree.PathIdsSnoc | packages/cdktf/lib/terraform-stack.ts:375 | One more scope appends its id to the path, unless the id is empty. |
| ConstructTree.SplitPath | packages/cdktf/lib/terraform-stack.ts:375 | Splitting a node path on "/" gives back its segments. |
| ConstructTree.AllNodes | packages/cdktf/lib/terraform-stack.ts:457-458 | `findAll` starts with the node itself. |
| ConstructTree.AllNodesOfAt | packages/cdktf/lib/terraform-stack.ts:457-458 | A node found under one child is found under the list of children. |
| ConstructTree.AllNodesComplete | packages/cdktf/lib/terraform-stack.ts:457-458 | Every node of the tree, nested stacks included, is visited. |
| ConstructTree.AllNodesSound | packages/cdktf/lib/terraform-stack.ts:457-458 | Only nodes of the tree are visited. |
| ConstructTree.AllNodesOfSound | packages/cdktf/lib/terraform-stack.ts:457-458 | The same for a list of children. |
| ConstructTree.IdsOf | packages/cdktf/lib/terraform-stack.ts:206 | The ids of the scopes, in order. |
| Strings.Split | packages/cdktf/lib/terraform-stack.ts:160 | Always at least one part, and no part holds the separator. |
| Strings.JoinSplit | packages/cdktf/lib/terraform-stack.ts:160 | Joining the parts of a split with the separator gives back the string. |
| Strings.SplitPrefix | packages/cdktf/lib/terraform-stack.ts:375 | A separator-free prefix stays in the first part. |
| Strings.SplitJoin | packages/cdktf/lib/terraform-stack.ts:375 | Splitting a join of separator-free parts gives back the parts. |
| Strings.DigitChar | packages/cdktf/lib/terraform-resource.ts:444 | The decimal digit character whose value is d. |
| Strings.NatToString | packages/cdktf/lib/terraform-resource.ts:444 | Decimal digits only, whose decimal value is n. A leading zero occurs only in "0" itself, so this is JavaScript's canonical `${n}`. |
| Strings.IntToString | packages/cdktf/lib/terraform-resource.ts:444 | A minus sign exactly for a negative number, followed by decimal digits whose value is the magnitude of the number. The digits start with a zero only when they are "0", and 0 renders as "0". |
| Strings.IntToStringInjective | packages/cdktf/lib/terraform-resource.ts:444 | Different integers render differently. |
| StackDependencies.StackGraph.constructor | packages/cdktf/lib/terraform-stack.ts:80 | Creates an empty graph that satisfies its invariant. |
| StackDependencies.StackGraph.AddStack | packages/cdktf/lib/terraform-stack.ts:80 | A new stack gets a fresh handle and no dependencies. |
| StackDependencies.StackGraph.DependsOn | packages/cdktf/lib/terraform-stack.ts:434-439 | A direct dependency is reached. Whatever is reached is a stack of the graph and lies strictly lower in the ranking, so the recursion ends and no stack reaches itself. |
| StackDependencies.StackGraph.AddDependency | packages/cdktf/lib/terraform-stack.ts:441-451 | Fails with the circular-dependency error when `d` is `s` or depends on `s`. A present dependency is a no-op, so there are no duplicates. Otherwise `d` is appended. On success `s.dependsOn(d)` holds and the graph stays acyclic. |
| StackDependencies.StackGraph.ReachersAreClosed | packages/cdktf/lib/terraform-stack.ts:434-439 | A node with an edge to a stack that reaches `s`, or to `s` itself, reaches `s`. |
| StackDependencies.StackGraph.AddDependencyAsWritten | packages/cdktf/lib/terraform-stack.ts:441-451 | As written: fails only when `d` depends on `s`. A present dependency is a no-op. Otherwise `d` is appended, even when `d` is `s`. |
| StackDependencies.DependsOnIsReachability | packages/cdktf/lib/terraform-stack.ts:434-439 | `s.dependsOn(t)` holds exactly when a walk of dependency edges leads from `s` to `t`. |
| StackDependencies.WalkDependsOn | packages/cdktf/lib/terraform-stack.ts:434-439 | A walk from `s` to `t` makes `s.dependsOn(t)` true. |
| StackDependencies.DependsOnLowersRank | packages/cdktf/lib/terraform-stack.ts:434-439 | A dependency sits strictly lower in the ranking, which is how the recursion terminates. |
| StackDependencies.NoStackDependsOnItself | packages/cdktf/lib/terraform-stack.ts:441-451 | No stack depends on itself in a graph kept by `addDependency`. |
| StackDependencies.SelfDependencyPassesGuard | packages/cdktf/lib/terraform-stack.ts:442 | In every acyclic graph, `s.dependsOn(s)` is false and `s` is not among its own dependencies, so `s.addDependency(s)` is accepted. |
| StackDependencies.SelfEdgeHasNoRanking | packages/cdktf/lib/terraform-stack.ts:434-439 | Once a stack lists itself, no ranking orders the graph. |
| Dependables.TraitRegistry.constructor | packages/cdktf/lib/tokens/private/dependency.ts:87 | Creates an empty registry. |
| Dependables.TraitRegistry.Implement | packages/cdktf/lib/tokens/private/dependency.ts:83-88 | Stores the trait, overwriting an earlier one, so that `get` then returns exactly it. |
| Dependables.TraitRegistry.Get | packages/cdktf/lib/tokens/private/dependency.ts:93-98 | Returns the stored trait, or fails with the does-not-implement error exactly when none is stored. |
| Dependables.ConcreteDependable.constructor | packages/cdktf/lib/tokens/private/dependency.ts:34-44 | Starts with no roots and registers its live view, changing only its own registry entry. |
| Dependables.ConcreteDependable.Add | packages/cdktf/lib/tokens/private/dependency.ts:49-51 | Appends the construct and keeps earlier roots in order. |
| Dependables.LiveViewTracksRoots | packages/cdktf/lib/tokens/private/dependency.ts:36-44 | The registered live view reports exactly the current roots. |
| Dependables.LiveViewAfterAdds | packages/cdktf/lib/tokens/private/dependency.ts:36-51 | After construction and two adds, the registry's trait lists both roots in order. |

## Left out

- Textual HCL and JSON rendering (`renderResource`, the `toHclTerraform` of the stack) is string formatting in files that are not shown.
- `deepMerge`, `keysToSnakeCase`, `processDynamicAttributes(ForHcl)`, `resolve`, `makeUniqueId` and `dependable` live in files that are not shown. They are uninterpreted parameters, and no merge semantics or collision-freedom is proved.
- `deepMerge(target, ...sources)` is taken to fold the sources onto the target from left to right.
- The move-target registry (`TerraformResourceTargets`, `addMoveTarget`) is in a file that is not shown. It is a map parameter, and a lookup of a missing target is taken to fail with its own error.
- The element's own `addOverride` and `rawOverrides` belong to `TerraformElement`, which is not part of this model. They are parameters of the resource's fragment and metadata functions.
- `friendlyUniqueId` is fixed when the resource is built. `overrideLogicalId` belongs to `TerraformElement` and is not modelled.
- The `Token.as*` attribute getters of the resource are token casts, which have no meaning without the token machinery.
- Backends and construction side effects: the `LocalBackend` that `ensureBackendExists` creates, context lookups, environment reads and the synthesizer. The backend's data source is represented by the request it receives (`RemoteState`).
- `TerraformOutput` construction itself is not modelled. A cross-stack output is represented by its id, value and `sensitive` flag.
- `cloud: undefined` in the stack metadata and other `undefined`-valued keys are left out of the objects, since they are dropped in the JSON output. `undefined` as an override value is not a `Value`.
- The stack's document does not reproduce JavaScript's ordering of object keys that look like integers; maps are unordered. The insertion order of override keys is kept explicitly.
- `addOverride` modifies nested objects in place, so they may be shared with the caller. `StorePath` walks down one loop as the source does, then writes each level back in a second loop. It does not capture that aliasing.
- ValidateTerraformVersion's version comparison is not shown. `importFrom` only records that the validation was attached.
- The stack's private async `findAll` and its users `allProviders` and `ensureBackendExists` are not modelled. `AllNodes` models the constructs library's `node.findAll()`, which `runAllValidations` uses.
- The stack `dependencies` lists are held by one `StackGraph` object keyed by stack handle, rather than one array per stack object.
- TerraformResources.TerraformResource.ToHclTerraform: its contract states only the attribute merge; agreement with the JSON form is stated by `HclAgreesWithJson`.
- TerraformResources.IndexSuffix: a move index is an unbounded integer. Fractional numbers are not modelled. An integer of 1e21 or more, which JavaScript renders in exponent notation ("1e+21"), is rendered in plain decimal.
- JavaScript numbers are doubles, while `Value.Num` is an unbounded integer: rounding and non-integer values are not modelled.
- TerraformResources.WithNodeMetadata: spreading a non-object "//" attribute (for example a string) is treated as spreading `{}`. Merged attributes that are not an object are treated as `{}`.
- Plain objects are modelled as maps without a prototype. In JavaScript, a lookup of a key such as "constructor" or "toString" finds a member of `Object.prototype`, and the model does not reproduce that:
  - `registerOutgoingCrossStackReference` with such an identifier returns that member instead of creating an output;
  - `registerIncomingCrossStackReference` for a top-level stack with such an id returns that member instead of creating a remote state;
  - `addOverride("__proto__.x", v)` walks into `Object.prototype`.
- TerraformStacks.Create: `super(scope, id)` attaches the new stack to the construct tree before the id checks run, so a refused stack stays in the tree. The model's `Create` leaves no trace of a refused stack.
- The stack's `toTerraform` takes each element's `toTerraform` as a parameter that may fail. A resource's `Fragment` is not itself turned into a `Value`.

## Findings

| source | as written | input that shows it | evidently intended | confidence | as-written member | corrected member |
|---|---|---|---|---|---|---|
| packages/cdktf/lib/terraform-stack.ts:441-451 | `addDependency` refuses `d` only when `d.dependsOn(this)` | `s.addDependency(s)` on any acyclic graph: `s.dependsOn(s)` is false, so `s` is appended to its own `dependencies`, and a later `s.dependsOn(t)` for a `t` that `s` does not reach calls itself again without end | a stack depending on itself is refused as a circular dependency | medium, not executed | StackDependencies.StackGraph.AddDependencyAsWritten | StackDependencies.StackGraph.AddDependency |
