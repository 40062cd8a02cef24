/** Entities shared by every stage of the scheduler. */
module Nodes {

  datatype Option<+T> = None | Some(value: T)

  /** A node's UUID; only equality is ever used on it. */
  type NodeId = nat

  /** `groq.Provider` is a string type with two named values. */
  datatype Provider = Groq | OpenAI | Other(name: string)

  /** The part of a work node the scheduler reads. */
  datatype WorkNode = WorkNode(id: NodeId, tokens: nat, provider: Provider)
}
