/** `RedisStore`: keyed records changed in place by single commands and scripts. */
module RedisStores {
  import opened Wrappers
  import opened TaskRecords
  import EventNumbers

  datatype StoreError = RecursionLimit

  datatype StreamEntry = StreamEntry(sequenceNumber: nat, eventType: string)

  function NumbersIn(entries: seq<StreamEntry>): seq<nat> {
    seq(|entries|, i requires 0 <= i < |entries| => entries[i].sequenceNumber)
  }

  /** No key and an empty key are the same. */
  predicate HasKey(key: Option<string>) {
    key.Some? && key.value != ""
  }

  class RedisStore {
    var tasks: map<string, TaskRecord>
    var idempotency: map<string, string>
    var leases: map<string, string>
    var sequences: map<string, nat>
    var streams: map<string, seq<StreamEntry>>

    constructor ()
      ensures tasks == map[] && idempotency == map[] && leases == map[] && sequences == map[] && streams == map[]
    {
      tasks, idempotency, leases, sequences, streams := map[], map[], map[], map[], map[];
    }

    /** The task an idempotency key stands for, if it is still there. */
    ghost function KeyedTask(key: Option<string>): Option<TaskRecord>
      reads this
    {
      if HasKey(key) && key.value in idempotency && idempotency[key.value] in tasks
      then Some(tasks[idempotency[key.value]]) else None
    }

    /** The key points to a task that is gone. */
    ghost predicate Dangling(key: Option<string>)
      reads this
    {
      HasKey(key) && key.value in idempotency && idempotency[key.value] !in tasks
    }

    /** A key that stands for a stored task returns that task and creates nothing; a key whose task is gone is
      * forgotten first. Otherwise the task is stored and the key stands for it from now on. A task id that is
      * already in use is never overwritten: without a key the record is handed back uncreated, with one the
      * method looks up the empty id and calls itself until the interpreter stops it. `depth` is how many nested
      * calls that allows. */
    method CreateTask(task: TaskRecord, key: Option<string>, depth: nat) returns (r: Result<(TaskRecord, bool), StoreError>)
      modifies this`tasks, this`idempotency
      decreases depth
      ensures match old(KeyedTask(key))
        case Some(found) => r == Ok((found, false)) && tasks == old(tasks) && idempotency == old(idempotency)
        case None =>
          if old(Dangling(key)) && depth == 0 then r == Err(RecursionLimit) && tasks == old(tasks)
          else if task.taskId !in old(tasks) then
            && r == Ok((task, true)) && tasks == old(tasks)[task.taskId := task]
            && (HasKey(key) ==> KeyedTask(key) == Some(task))
          else
            && tasks == old(tasks)
            && r == if !HasKey(key) then Ok((task, false))
                    else if "" in tasks then Ok((tasks[""], false)) else Err(RecursionLimit)
      ensures forall k | k in old(idempotency) && Some(k) != key :: k in idempotency && idempotency[k] == old(idempotency[k])
    {
      if !HasKey(key) {
        if task.taskId in tasks {
          return Ok((task, false));
        }
        tasks := tasks[task.taskId := task];
        return Ok((task, true));
      }
      var resolved := "";
      if key.value in idempotency {
        resolved := idempotency[key.value];
      } else if task.taskId !in tasks {
        tasks := tasks[task.taskId := task];
        idempotency := idempotency[key.value := task.taskId];
        return Ok((task, true));
      }
      if resolved in tasks {
        return Ok((tasks[resolved], false));
      }
      idempotency := map k | k in idempotency && k != key.value :: idempotency[k];
      if depth == 0 {
        return Err(RecursionLimit);
      }
      r := CreateTask(task, key, depth - 1);
    }

    method GetTask(taskId: string) returns (r: Option<TaskRecord>)
      ensures r == if taskId in tasks then Some(tasks[taskId]) else None
    {
      r := if taskId in tasks then Some(tasks[taskId]) else None;
    }

    method SaveTask(task: TaskRecord)
      modifies this`tasks
      ensures tasks == old(tasks)[task.taskId := task]
    {
      tasks := tasks[task.taskId := task];
    }

    /** Compare-and-set on the status alone: the whole record is replaced or nothing is. */
    method TransitionTask(task: TaskRecord, expected: TaskStatus) returns (done: bool)
      modifies this`tasks
      ensures done <==> task.taskId in old(tasks) && old(tasks)[task.taskId].status == expected
      ensures tasks == if done then old(tasks)[task.taskId := task] else old(tasks)
    {
      if task.taskId !in tasks || tasks[task.taskId].status != expected {
        return false;
      }
      tasks := tasks[task.taskId := task];
      return true;
    }

    method AcquireTaskLease(taskId: string, owner: string) returns (acquired: bool)
      modifies this`leases
      ensures acquired <==> taskId !in old(leases)
      ensures leases == if acquired then old(leases)[taskId := owner] else old(leases)
    {
      acquired := taskId !in leases;
      if acquired {
        leases := leases[taskId := owner];
      }
    }

    /** Only the owner's release takes the lease away. */
    method ReleaseTaskLease(taskId: string, owner: string)
      modifies this`leases
      ensures leases == if taskId in old(leases) && old(leases)[taskId] == owner
                        then old(leases) - {taskId} else old(leases)
    {
      if taskId in leases && leases[taskId] == owner {
        leases := leases - {taskId};
      }
    }

    /** The task's counter and stream, with the numbers that appenders have drawn and not added yet. */
    ghost function NumbersOf(taskId: string, drawn: map<nat, nat>): EventNumbers.Numbers
      reads this
    {
      EventNumbers.Numbers(if taskId in sequences then sequences[taskId] else 0, drawn,
                           if taskId in streams then NumbersIn(streams[taskId]) else [])
    }

    /** INCR: a number this task has not had before. It is the first of an appender's two steps, and others may
      * come in between. */
    method NextSequence(taskId: string, ghost appender: nat, ghost drawn: map<nat, nat>) returns (number: nat)
      requires appender !in drawn
      modifies this`sequences
      ensures sequences == old(sequences)[taskId := number]
      ensures number == (if taskId in old(sequences) then old(sequences)[taskId] else 0) + 1
      ensures NumbersOf(taskId, drawn[appender := number])
           == EventNumbers.Do(old(NumbersOf(taskId, drawn)), EventNumbers.Increment(appender))
    {
      number := (if taskId in sequences then sequences[taskId] else 0) + 1;
      sequences := sequences[taskId := number];
    }

    /** XADD: the entry goes to the end of the stream, whatever other appenders did since its number was drawn. */
    method AddEvent(taskId: string, number: nat, eventType: string, ghost appender: nat, ghost drawn: map<nat, nat>)
      requires appender in drawn && drawn[appender] == number
      modifies this`streams
      ensures streams == old(streams)[taskId :=
                (if taskId in old(streams) then old(streams)[taskId] else []) + [StreamEntry(number, eventType)]]
      ensures NumbersOf(taskId, drawn - {appender})
           == EventNumbers.Do(old(NumbersOf(taskId, drawn)), EventNumbers.Add(appender))
    {
      var sofar := if taskId in streams then streams[taskId] else [];
      streams := streams[taskId := sofar + [StreamEntry(number, eventType)]];
    }

    /** One appender: its number is drawn, others append what they append (`counter` and `stream` are what they
      * leave), and its event is added at the end. */
    method AppendEvent(taskId: string, eventType: string, counter: nat, stream: seq<StreamEntry>) returns (entry: StreamEntry)
      modifies this`sequences, this`streams
      ensures entry == StreamEntry((if taskId in old(sequences) then old(sequences)[taskId] else 0) + 1, eventType)
      ensures sequences == old(sequences)[taskId := counter]
      ensures streams == old(streams)[taskId := stream + [entry]]
    {
      var number := NextSequence(taskId, 0, map[]);
      sequences, streams := sequences[taskId := counter], streams[taskId := stream];
      AddEvent(taskId, number, eventType, 0, map[0 := number]);
      entry := StreamEntry(number, eventType);
    }
  }
}
