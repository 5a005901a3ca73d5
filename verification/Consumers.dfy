/** The consumers of a runtime, one task or subscription for each function, brought in line with a set of names. */
module Consumers {

  /** The registered tasks of the functions in `names`. */
  function KeptTasks(tasks: map<string, nat>, names: set<string>): map<string, nat> {
    map name | name in tasks && name in names :: tasks[name]
  }

  function DroppedTasks(tasks: map<string, nat>, names: set<string>): set<nat> {
    set name | name in tasks && name !in names :: tasks[name]
  }

  lemma DropOne(tasks: map<string, nat>, names: set<string>, name: string)
    requires name in tasks && name in names
    ensures KeptTasks(tasks, names - {name}) == KeptTasks(tasks, names) - {name}
    ensures DroppedTasks(tasks, names - {name}) == DroppedTasks(tasks, names) + {tasks[name]}
  {
  }

  lemma DropNone(tasks: map<string, nat>, names: set<string>)
    requires tasks.Keys <= names
    ensures KeptTasks(tasks, names) == tasks && DroppedTasks(tasks, names) == {}
  {
  }

  lemma KeepUnderStart(tasks: map<string, nat>, names: set<string>, name: string, task: nat)
    requires name !in names
    ensures KeptTasks(tasks[name := task], names) == KeptTasks(tasks, names)
  {
  }

  /** Every task that was started and not cancelled is the one registered consumer of its function. */
  ghost predicate Registered(tasks: map<string, nat>, started: map<nat, string>, cancelled: set<nat>, nextTask: nat) {
    && cancelled <= started.Keys
    && (forall t :: t in started ==> t < nextTask)
    && (forall name :: name in tasks ==>
      tasks[name] in started && tasks[name] !in cancelled && started[tasks[name]] == name)
    && (forall t :: t in started && t !in cancelled ==> started[t] in tasks && tasks[started[t]] == t)
  }

  lemma CancelKeepsRegistered(
      tasks: map<string, nat>, started: map<nat, string>, cancelled: set<nat>, nextTask: nat, name: string)
    requires Registered(tasks, started, cancelled, nextTask) && name in tasks
    ensures Registered(tasks - {name}, started, cancelled + {tasks[name]}, nextTask)
  {
  }

  lemma StartKeepsRegistered(
      tasks: map<string, nat>, started: map<nat, string>, cancelled: set<nat>, nextTask: nat, name: string)
    requires Registered(tasks, started, cancelled, nextTask) && name !in tasks
    ensures Registered(tasks[name := nextTask], started[nextTask := name], cancelled, nextTask + 1)
    ensures nextTask !in started
  {
  }

  class Registry {
    var tasks: map<string, nat>
    var started: map<nat, string>
    var cancelled: set<nat>
    var nextTask: nat

    constructor ()
      ensures Valid() && tasks == map[] && started == map[] && cancelled == {}
    {
      tasks, started, cancelled, nextTask := map[], map[], {}, 0;
    }

    ghost predicate Valid()
      reads this
    {
      Registered(tasks, started, cancelled, nextTask)
    }

    /** The tasks still consuming messages for `name`. */
    ghost function LiveConsumers(name: string): set<nat>
      reads this
    {
      set t | t in started && t !in cancelled && started[t] == name
    }

    lemma AtMostOneConsumer(name: string)
      requires Valid()
      ensures LiveConsumers(name) == if name in tasks then {tasks[name]} else {}
    {
    }

    /** Cancels the consumers of names that are not desired and starts one for each desired name that has none. */
    method Reconcile(desired: set<string>)
      requires Valid()
      modifies this
      ensures Valid() && tasks.Keys == desired
      ensures forall name :: name in tasks && name in old(tasks) ==> tasks[name] == old(tasks)[name]
      ensures forall name :: name in tasks && name !in old(tasks) ==> tasks[name] !in old(started)
      ensures cancelled == old(cancelled) + DroppedTasks(old(tasks), desired)
    {
      CancelConsumers(desired);
      assert forall name :: name in old(tasks) && name in desired ==> name in tasks && tasks[name] == old(tasks)[name];
      hide KeptTasks, DroppedTasks, Registered;
      StartConsumers(desired);
    }

    method CancelConsumers(desired: set<string>)
      requires Valid()
      modifies this`tasks, this`cancelled
      ensures Valid()
      ensures tasks == KeptTasks(old(tasks), desired)
      ensures cancelled == old(cancelled) + DroppedTasks(old(tasks), desired)
    {
      var names := tasks.Keys;
      ghost var kept := names + desired;
      DropNone(tasks, kept);
      hide Registered, KeptTasks, DroppedTasks;
      while names != {}
        invariant names <= tasks.Keys <= old(tasks).Keys && Valid()
        invariant desired <= kept <= names + desired && names <= kept
        invariant tasks == KeptTasks(old(tasks), kept)
        invariant cancelled == old(cancelled) + DroppedTasks(old(tasks), kept)
        decreases names
      {
        var name :| name in names;
        names := names - {name};
        if name !in desired {
          DropOne(old(tasks), kept, name);
          kept := kept - {name};
          CancelConsumer(name);
        }
      }
      assert kept == desired;
    }

    method CancelConsumer(name: string)
      requires Valid() && name in tasks
      modifies this`tasks, this`cancelled
      ensures Valid()
      ensures tasks == old(tasks) - {name} && cancelled == old(cancelled) + {old(tasks)[name]}
    {
      CancelKeepsRegistered(tasks, started, cancelled, nextTask, name);
      hide Registered;
      var task := tasks[name];
      tasks := tasks - {name};
      cancelled := cancelled + {task};
    }

    method StartConsumers(desired: set<string>)
      requires Valid() && tasks.Keys <= desired
      modifies this`tasks, this`started, this`nextTask
      ensures Valid() && tasks.Keys == desired
      ensures KeptTasks(tasks, old(tasks).Keys) == old(tasks)
      ensures forall name :: name in tasks && name !in old(tasks) ==> tasks[name] >= old(nextTask)
    {
      ghost var had := tasks.Keys;
      var names := desired;
      DropNone(tasks, had);
      hide Registered, KeptTasks;
      while names != {}
        invariant Valid() && tasks.Keys <= desired <= tasks.Keys + names
        invariant had <= tasks.Keys && KeptTasks(tasks, had) == old(tasks)
        invariant nextTask >= old(nextTask)
        invariant forall name :: name in tasks && name !in had ==> tasks[name] >= old(nextTask)
        decreases names
      {
        var name :| name in names;
        names := names - {name};
        if name in tasks {
          continue;
        }
        KeepUnderStart(tasks, had, name, nextTask);
        StartConsumer(name);
      }
    }

    method StartConsumer(name: string)
      requires Valid() && name !in tasks
      modifies this`tasks, this`started, this`nextTask
      ensures Valid()
      ensures tasks == old(tasks)[name := old(nextTask)] && started == old(started)[old(nextTask) := name]
      ensures old(nextTask) !in old(started)
    {
      StartKeepsRegistered(tasks, started, cancelled, nextTask, name);
      hide Registered;
      tasks := tasks[name := nextTask];
      started := started[nextTask := name];
      nextTask := nextTask + 1;
    }
  }
}
