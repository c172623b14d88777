/**
 * The failures a service call can report. `ResourceNotFoundException` becomes the
 * `NotFound` arm, naming the kind of entity and the id that did not resolve;
 * a write that the store refuses (a column constraint, the foreign key) becomes
 * `DbUpdateFailed`, which the services let propagate.
 */
module Exceptions {

  datatype Entity = BoardEntity | TaskEntity

  datatype Error =
    | NotFound(entity: Entity, id: int)
    | DbUpdateFailed
}
