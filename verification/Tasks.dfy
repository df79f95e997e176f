/** The unit of work, as declared in include/runtime/Task.hpp. */
module Tasks {

  type byte = x: int | 0 <= x < 256

  type Bytes = seq<byte>

  /** The unsigned integer widths that cross the wire. */
  type u16 = x: int | 0 <= x < 0x1_0000

  type u32 = x: int | 0 <= x < 0x1_0000_0000

  type u64 = x: int | 0 <= x < 0x1_0000_0000_0000_0000

  /** TaskType is a 16-bit tag; the named values are 0 (Generic) to 4, and 5 is the sentinel Count. */
  const TYPE_COUNT: nat := 5

  /**
    A task in its portable form: a type tag and a byte payload.  The closure `fn` and the trace
    stamp `submit_ns` are not part of the value; where a closure matters it is modelled explicitly.
   */
  datatype Task = Task(
    taskId: u64,
    parentId: u64,
    depth: u32,
    costHint: u32,
    originNode: u32,
    taskType: u16,
    payload: Bytes)

  datatype Option<+T> = None | Some(value: T) {
    predicate IsFailure() {
      None?
    }
    function PropagateFailure<U>(): Option<U>
      requires None?
    {
      None
    }
    function Extract(): T
      requires Some?
    {
      value
    }
  }
}
