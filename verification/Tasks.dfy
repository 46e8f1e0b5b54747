// The bits of OS_STATE (os.h:191-207): a task is ready when none is set.

module Tasks {

  datatype TaskState = TaskState(susp: bool, pend: bool, dly: bool)

  const RDY := TaskState(false, false, false)
  const DLY := TaskState(false, false, true)
  const PEND := TaskState(false, true, false)
  const PEND_TIMEOUT := TaskState(false, true, true)
  const SUSPENDED := TaskState(true, false, false)
  const DLY_SUSPENDED := TaskState(true, false, true)
  const PEND_SUSPENDED := TaskState(true, true, false)
  const PEND_TIMEOUT_SUSPENDED := TaskState(true, true, true)
}
