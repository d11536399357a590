/** The FIFO between the worker threads and the game thread; each call is one locked step. */
module GameJobQueue {
  import opened Protocol

  class GameJobQueue {
    var queue: seq<Job>
    ghost var pushed: seq<Job>   // every job ever pushed
    ghost var popped: seq<Job>   // every job ever popped

    /** First in, first out, nothing lost and nothing made up. */
    ghost predicate Valid()
      reads this
    {
      pushed == popped + queue
    }

    constructor ()
      ensures Valid() && queue == [] && popped == []
    {
      queue, pushed, popped := [], [], [];
    }

    method Push(job: Job)
      requires Valid()
      modifies this
      ensures Valid()
      ensures queue == old(queue) + [job] && pushed == old(pushed) + [job] && popped == old(popped)
    {
      queue := queue + [job];
      pushed := pushed + [job];
    }

    method Pop() returns (found: bool, job: Job)
      requires Valid()
      modifies this
      ensures Valid() && pushed == old(pushed)
      ensures found <==> old(queue) != []
      ensures found ==> old(queue) == [job] + queue && popped == old(popped) + [job]
      ensures !found ==> queue == old(queue) && popped == old(popped)
    {
      if queue == [] {
        return false, Connect(0);
      }
      found, job := true, queue[0];
      queue := queue[1..];
      popped := popped + [job];
    }
  }
}
