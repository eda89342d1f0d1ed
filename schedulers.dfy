/**
 * The create, update and destroy actions of the schedulers controller, over
 * the table of persisted schedulers. Each mutating action that runs the
 * action file first checks that the file is there, then persists, then does
 * one test run, and undoes the persisted change when the test run raises.
 *
 * The file check, whether ActiveRecord's validations let a save or an update
 * through, and how the test run ends are handed in as parameters.
 */
module Schedulers {
  import opened Wrappers
  import opened RunLog

  type Id = nat

  /** A scheduler's stored attributes (`action`, `next`, `until`, `interval`, `disabled`); None is nil. */
  datatype Fields = Fields(
    action: Option<string>,
    next: Option<int>,
    until: Option<int>,
    interval: Option<int>,
    disabled: Option<bool>)

  /** One permitted request parameter: left out of the request, or given (possibly as nil). */
  datatype Param<T> = Absent | Given(value: Option<T>)

  /** The permitted parameters of a request, one per attribute. */
  datatype Params = Params(
    action: Param<string>,
    next: Param<int>,
    until: Param<int>,
    interval: Param<int>,
    disabled: Param<bool>)

  /** The request names an action file; otherwise resolving its path raises. */
  predicate HasAction(params: Params)
  {
    params.action.Given? && params.action.value.Some?
  }

  /** A persisted scheduler: the course it belongs to and its attributes. */
  datatype Scheduler = Scheduler(courseId: nat, fields: Fields)

  /** Why an action was turned down; each leaves the table as it was. */
  datatype Rejection =
    | ActionFileMissing   // the action path does not exist or is not readable
    | FieldsInvalid       // the save or update was refused by validation
    | TestRunFailed       // the test run raised and the change was undone

  /** How a request ends: done, turned down with a message, or an uncaught exception. */
  datatype Response = Done(id: Id) | Rejected(why: Rejection) | Crashed

  /** The value an attribute takes when a request may carry it. */
  function AssignOne<T>(current: Option<T>, param: Param<T>): (v: Option<T>)
  {
    match param
    case Absent => current
    case Given(value) => value
  }

  /**
   * Assigning the parameters a request carries over attributes: every given
   * parameter overwrites its attribute, nil included; the others are kept.
   */
  function Assign(current: Fields, params: Params): (updated: Fields)
  {
    Fields(
      AssignOne(current.action, params.action),
      AssignOne(current.next, params.next),
      AssignOne(current.until, params.until),
      AssignOne(current.interval, params.interval),
      AssignOne(current.disabled, params.disabled))
  }

  class SchedulersController {
    /** The schedulers table, by id. */
    var records: map<Id, Scheduler>
    /** The id the database hands out next; never reused, even after a rollback. */
    var nextId: Id

    ghost predicate Valid()
      reads this
    {
      forall id :: id in records ==> id < nextId
    }

    constructor ()
      ensures Valid() && records == map[] && nextId == 0
    {
      records := map[];
      nextId := 0;
    }

    /**
     * `create`: a missing action parameter crashes, an unreadable action file
     * or a refused save is reported, and otherwise the new scheduler (the
     * column defaults `defaults` with the given parameters assigned over them)
     * is saved and test-run. If the test run raises, the new record is destroyed, so the
     * table ends as it began; only the consumed id is not given back.
     */
    method Create(courseId: nat, defaults: Fields, params: Params, courseName: string,
                  actionReadable: bool, saveSucceeds: bool, run: RunOutcome) returns (r: Response)
      requires Valid()
      modifies this
      ensures Valid()
      ensures r == Crashed <==> !HasAction(params)
      ensures r == Rejected(ActionFileMissing) <==> HasAction(params) && !actionReadable
      ensures r == Rejected(FieldsInvalid) <==> HasAction(params) && actionReadable && !saveSucceeds
      ensures r == Rejected(TestRunFailed) <==>
                HasAction(params) && actionReadable && saveSucceeds && TestRunFails(run, courseName)
      ensures r.Done? <==>
                HasAction(params) && actionReadable && saveSucceeds && !TestRunFails(run, courseName)
      ensures r.Done? ==>
                && r.id == old(nextId) && r.id !in old(records)
                && records == old(records)[r.id := Scheduler(courseId, Assign(defaults, params))]
      ensures !r.Done? ==> records == old(records)
      ensures nextId == if HasAction(params) && actionReadable && saveSucceeds then old(nextId) + 1 else old(nextId)
    {
      if !HasAction(params) {
        return Crashed;
      }
      if !actionReadable {
        return Rejected(ActionFileMissing);
      }
      if !saveSucceeds {
        return Rejected(FieldsInvalid);
      }
      var id := nextId;
      records := records[id := Scheduler(courseId, Assign(defaults, params))];
      nextId := nextId + 1;
      var raised := TestRunVisualScheduler(run, courseName);
      if raised {
        records := records - {id};
        assert id !in old(records);
        return Rejected(TestRunFailed);
      }
      return Done(id);
    }

    /**
     * `update`: a missing action parameter crashes, an unreadable action file
     * is reported, a missing scheduler crashes, a refused update is reported,
     * and otherwise the new attributes are stored and test-run. If the test run
     * raises, the snapshot taken before the update is written back, so the table
     * ends as it began. No other record is ever touched.
     */
    method Update(id: Id, params: Params, courseName: string, actionReadable: bool,
                  updateSucceeds: bool, run: RunOutcome) returns (r: Response)
      requires Valid()
      modifies this
      ensures Valid() && nextId == old(nextId)
      ensures r == Crashed <==> !HasAction(params) || (actionReadable && id !in old(records))
      ensures r == Rejected(ActionFileMissing) <==> HasAction(params) && !actionReadable
      ensures r == Rejected(FieldsInvalid) <==>
                HasAction(params) && actionReadable && id in old(records) && !updateSucceeds
      ensures r == Rejected(TestRunFailed) <==>
                HasAction(params) && actionReadable && id in old(records) && updateSucceeds
                && TestRunFails(run, courseName)
      ensures r.Done? <==>
                HasAction(params) && actionReadable && id in old(records) && updateSucceeds
                && !TestRunFails(run, courseName)
      ensures r.Done? ==>
                && r.id == id && id in old(records)
                && records == old(records)[id := Scheduler(old(records)[id].courseId, Assign(old(records)[id].fields, params))]
      ensures !r.Done? ==> records == old(records)
    {
      if !HasAction(params) {
        return Crashed;
      }
      if !actionReadable {
        return Rejected(ActionFileMissing);
      }
      if id !in records {
        return Crashed;
      }
      var previous := records[id];
      if !updateSucceeds {
        return Rejected(FieldsInvalid);
      }
      records := records[id := Scheduler(previous.courseId, Assign(previous.fields, params))];
      var raised := TestRunVisualScheduler(run, courseName);
      if raised {
        records := records[id := previous];
        return Rejected(TestRunFailed);
      }
      return Done(id);
    }

    /**
     * `destroy`: removes the scheduler with that id and nothing else. With no
     * such scheduler, building the redirect to its edit page raises, so the
     * request crashes and the table stays as it was.
     */
    method Destroy(id: Id) returns (r: Response)
      requires Valid()
      modifies this
      ensures Valid() && nextId == old(nextId)
      ensures r == (if id in old(records) then Done(id) else Crashed)
      ensures records == old(records) - {id}
    {
      if id in records {
        records := records - {id};
        return Done(id);
      }
      return Crashed;
    }
  }
}
