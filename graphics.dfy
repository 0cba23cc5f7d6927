/** Draw operations, the queue they are collected in, and the sink that replays them (graphics.rs). */
module Graphics {
  import opened Geometry

  datatype GraphicOperation =
    | DrawRectangle(rect: Rectangle, color: Color)
    | DrawText(position: Point, text: string, color: Color)

  /** `GraphicOperationQueue`: a vector appended to by painting and emptied by the endpoint. */
  class OperationQueue {
    var operations: seq<GraphicOperation>

    constructor()
      ensures operations == []
    {
      operations := [];
    }

    method Push(operation: GraphicOperation)
      modifies this
      ensures operations == old(operations) + [operation]
    {
      operations := operations + [operation];
    }

    /** Hands out every queued operation in push order and leaves the queue empty. */
    method Drain() returns (drained: seq<GraphicOperation>)
      modifies this
      ensures drained == old(operations)
      ensures operations == []
    {
      drained := operations;
      operations := [];
    }
  }

  /**
   * `EmbeddedGraphicsEndpoint`: the pixel surface is out of scope, so the
   * endpoint keeps the log of operations it has carried out.
   */
  class Endpoint {
    var drawn: seq<GraphicOperation>

    constructor()
      ensures drawn == []
    {
      drawn := [];
    }

    /** `draw_queue`: carry out each queued operation once, in queue order. */
    method DrawQueue(queue: OperationQueue)
      modifies this, queue
      ensures drawn == old(drawn) + old(queue.operations)
      ensures queue.operations == []
    {
      var operations := queue.Drain();
      for i := 0 to |operations|
        invariant drawn == old(drawn) + operations[..i]
        invariant queue.operations == []
      {
        match operations[i]
        case DrawRectangle(rect, color) =>
          drawn := drawn + [DrawRectangle(rect, color)];
        case DrawText(position, text, color) =>
          drawn := drawn + [DrawText(position, text, color)];
      }
    }
  }
}
