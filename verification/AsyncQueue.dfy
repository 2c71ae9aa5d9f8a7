/** The asynchronous queue between the engine and its output threads. */
module AsyncQueues {
  import opened Options

  /** A promise; its resolver is whoever holds it in the queue's list of resolvers. */
  class Promise<T> {
    var value: Option<T>

    constructor ()
      ensures value == None
    {
      value := None;
    }
  }

  class AsyncBlockingQueue<T> {
    var resolvers: seq<Promise<T>>
    var promises: seq<Promise<T>>
    // Every promise made, every value enqueued and the number of dequeues, in order.
    ghost var made: seq<Promise<T>>
    ghost var enqueued: seq<T>
    ghost var dequeues: nat

    /** The promises, for framing. */
    ghost function Made(): set<Promise<T>>
      reads this
    {
      set p <- made
    }

    ghost predicate Valid()
      reads this, Made()
    {
      && (forall i, j :: 0 <= i < j < |made| ==> made[i] != made[j])
      && |made| == (if |enqueued| < dequeues then dequeues else |enqueued|)
      && resolvers == made[|enqueued|..]
      && promises == made[dequeues..]
      && (forall i :: 0 <= i < |made| ==> made[i].value == if i < |enqueued| then Some(enqueued[i]) else None)
    }

    constructor ()
      ensures Valid() && made == [] && enqueued == [] && dequeues == 0
    {
      resolvers, promises, made, enqueued, dequeues := [], [], [], [], 0;
    }

    /** One more promise, at the end of both lists. */
    method Push()
      modifies this`resolvers, this`promises, this`made
      ensures |made| == |old(made)| + 1 && made[..|old(made)|] == old(made) && fresh(made[|old(made)|])
      ensures made[|old(made)|].value == None
      ensures resolvers == old(resolvers) + [made[|old(made)|]] && promises == old(promises) + [made[|old(made)|]]
    {
      var p := new Promise<T>();
      promises := promises + [p];
      resolvers := resolvers + [p];
      made := made + [p];
    }

    /** The value goes to the earliest promise without one, made now if there is none. */
    method Enqueue(t: T)
      requires Valid()
      modifies this, Made()
      ensures Valid() && enqueued == old(enqueued) + [t] && dequeues == old(dequeues)
      ensures |old(made)| <= |made| && made[..|old(made)|] == old(made) && fresh(Made() - old(Made()))
    {
      if |resolvers| == 0 {
        Push();
      }
      resolvers[0].value := Some(t);
      resolvers := resolvers[1..];
      enqueued := enqueued + [t];
    }

    /** The i-th call gets the i-th promise, which carries the i-th value enqueued, now or later. */
    method Dequeue() returns (p: Promise<T>)
      requires Valid()
      modifies this
      ensures Valid() && enqueued == old(enqueued) && dequeues == old(dequeues) + 1
      ensures |old(made)| <= |made| && made[..|old(made)|] == old(made) && fresh(Made() - old(Made()))
      ensures old(dequeues) < |made| && p == made[old(dequeues)]
    {
      if |promises| == 0 {
        Push();
      }
      p := promises[0];
      promises := promises[1..];
      dequeues := dequeues + 1;
    }

    /** True exactly when every value enqueued has been claimed by a dequeue. */
    predicate IsEmpty()
      requires Valid()
      reads this, Made()
      ensures IsEmpty() <==> |enqueued| <= dequeues
    {
      |promises| == 0
    }

    /** Promises wait for values or values for dequeues, never both. */
    lemma OneListIsEmpty()
      requires Valid()
      ensures resolvers == [] || promises == []
      ensures |promises| == (if dequeues < |enqueued| then |enqueued| - dequeues else 0)
      ensures |resolvers| == (if |enqueued| < dequeues then dequeues - |enqueued| else 0)
    {
    }
  }

  // ---------- Every interleaving ----------

  datatype Call<T> = Put(value: T) | Take

  /** The values put in, in order. */
  function Values<T>(calls: seq<Call<T>>): seq<T> {
    if calls == [] then []
    else
      var before := Values(calls[..|calls| - 1]);
      if calls[|calls| - 1].Put? then before + [calls[|calls| - 1].value] else before
  }

  function Takes<T>(calls: seq<Call<T>>): nat {
    if calls == [] then 0
    else Takes(calls[..|calls| - 1]) + if calls[|calls| - 1].Take? then 1 else 0
  }

  /** Whatever the interleaving, the i-th promise handed out is resolved with the i-th value put in, if there is one. */
  method Perform<T>(calls: seq<Call<T>>) returns (handed: seq<Promise<T>>)
    ensures |handed| == Takes(calls)
    ensures forall i :: 0 <= i < |handed| ==>
      handed[i].value == if i < |Values(calls)| then Some(Values(calls)[i]) else None
  {
    var queue := new AsyncBlockingQueue<T>();
    handed := [];
    for n := 0 to |calls|
      invariant queue.Valid() && fresh(queue) && fresh(queue.Made())
      invariant queue.enqueued == Values(calls[..n]) && queue.dequeues == |handed| == Takes(calls[..n])
      invariant |handed| <= |queue.made| && handed == queue.made[..|handed|]
    {
      assert calls[..n + 1][..n] == calls[..n];
      if calls[n].Put? {
        queue.Enqueue(calls[n].value);
      } else {
        var p := queue.Dequeue();
        handed := handed + [p];
      }
    }
    assert calls[..|calls|] == calls;
  }
}
