/**
 * The errors thrown by the modelled core. Each variant carries the arguments the
 * source passes to the corresponding error factory, except `MoveTargetNotFound`,
 * whose factory lives in the move-target registry and is taken to receive the
 * target name. The message text the factories build is not part of this model.
 */
module Errors {

  /** A `{to, from}` pair of resource addresses, as carried by a moved block. */
  datatype AddressPair = AddressPair(to: string, from: string)

  type StackHandle = nat

  datatype Error =
      /** terraformMetaArguments: `forEach` and `count` set together (carries the node path). */
    | ForEachAndCountBothSet(path: string)
      /** The move-target registry has no resource under this name. */
    | MoveTargetNotFound(moveTarget: string)
      /** movedToResourceOfDifferentType(moveTarget, own type, target type). */
    | MovedToResourceOfDifferentType(moveTarget: string, fromType: string, toType: string)
      /** resourceGivenTwoMoveOperationsByTarget(friendlyUniqueId, existing target, new target). */
    | TwoMovesByTarget(friendlyUniqueId: string, existingTarget: string, newTarget: string)
      /** resourceGivenTwoMoveOperationsById(node id, existing pair as passed, requested pair). */
    | TwoMovesById(nodeId: string, existing: AddressPair, requested: AddressPair)
      /** resourceGivenTwoMoveOperationsByTargetAndId(node id, move target, by-id pair). */
    | TwoMovesByTargetAndId(nodeId: string, moveTarget: string, byId: AddressPair)
      /** noStackForConstruct(path, hint); the hint is "" or the App-as-scope advice. */
    | NoStackForConstruct(path: string, hint: string)
      /** stackContainsDisallowedChar(id, char). */
    | StackContainsDisallowedChar(id: string, ch: char)
      /** stackIdContainsWhitespace(id). */
    | StackIdContainsWhitespace(id: string)
      /** stackHasCircularDependency(stack, dependency). */
    | StackHasCircularDependency(stack: StackHandle, dependency: StackHandle)
      /** stackValidationFailure(error list). */
    | StackValidationFailure(errorList: string)
      /** doesNotImplementDependableTrait(instance). */
    | DoesNotImplementDependableTrait(instance: object)
}
