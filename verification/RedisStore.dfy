/** The Redis side of the service: four lists and the `job:<id>` records. */
module RedisStore {
  import opened RedisLists
  import opened Jobs

  datatype Redis = Redis(
    main: seq<ID>,
    processing: seq<ID>,
    dead: seq<ID>,
    finished: seq<string>,
    jobs: map<ID, Job>)
  {
    function Find(id: ID): Option<Job> {
      if id in jobs then Some(jobs[id]) else None
    }

    function Put(id: ID, job: Job, now: nat): Redis {
      this.(jobs := jobs[id := Stamp(job, now)])
    }

    /** BRPOPLPUSH main processing */
    function Take(): Redis
      requires main != []
    {
      this.(main := main[..|main| - 1], processing := LPush(processing, main[|main| - 1]))
    }

    function PushMain(id: ID): Redis {
      this.(main := LPush(main, id))
    }

    function PushDead(id: ID): Redis {
      this.(dead := LPush(dead, id))
    }

    function PushFinished(entry: string): Redis {
      this.(finished := LPush(finished, entry))
    }

    function Remove(id: ID): Redis {
      this.(processing := LRem(processing, id))
    }
  }

  const EMPTY := Redis([], [], [], [], map[])

  /** What a successful job puts on the finished list. */
  function ProcessedId(id: ID): string {
    id + "_processed"
  }

  lemma ProcessedIdInjective(a: ID, b: ID)
    requires ProcessedId(a) == ProcessedId(b)
    ensures a == b
  {
    assert a == ProcessedId(a)[..|a|];
    assert b == ProcessedId(b)[..|b|];
  }
}
