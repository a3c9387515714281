/** The part record and the producer/consumer vocabulary of the newer
    simulator (src/sim/entities/abc.py). */
module Parts {

  /** A node is referred to by its name, which the builder keeps unique. */
  type NodeId = string

  /** Stands for the uuid4 a part is given at creation. */
  type PartId = nat

  /** A part: an identity and the simulated time it was created at. */
  datatype Part = Part(id: PartId, creationTime: real)

  /** A producer calling `put(part)` on the consumer named `target`. */
  datatype Delivery = Delivery(target: NodeId, part: Part)
}
