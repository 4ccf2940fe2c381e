/** The names things go by. */
module Ids {
  datatype PeerId = PeerId(name: string)
  datatype JobId = JobId(uuid: string)
  type PodId = nat
}
