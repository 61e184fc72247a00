/** The rows the time tracker keeps: the directory of people, devices and work, and the tables that
    `sync_work_session` writes. Identifiers are numbers, times are microseconds since the epoch in UTC. */
module Records {

  datatype Option<+T> = None | Some(value: T)

  type UserId = nat
  type DeviceId = nat
  type ProjectId = nat
  type TaskId = nat
  type EventId = nat

  /** A work session's identifier is its position in the append-only session table. */
  type SessionId = nat

  const SECOND: int := 1_000_000
  const MINUTE: int := 60 * SECOND
  const DAY: int := 86_400 * SECOND

  function Max(a: int, b: int): int { if a >= b then a else b }

  function Min(a: int, b: int): int { if a <= b then a else b }

  /** The calendar day (in UTC) that holds an instant. */
  function DayOf(at: int): int { at / DAY }

  /** Monday of the week that holds a day, counted from Thursday 1 January 1970. */
  function MondayOf(day: int): int { (day + 3) / 7 * 7 - 3 }

  datatype Status = Active | Paused | Stopped

  datatype Role = Admin | Manager | Member | Viewer

  datatype ProjectRole = Worker | ProjectManager | ProjectViewer

  /** A limit of 0 minutes means that no limit is set. */
  datatype User = User(enabled: bool, role: Role, dailyLimit: nat, weeklyLimit: nat)

  datatype Device = Device(owner: Option<UserId>, project: Option<ProjectId>, desktop: bool, enabled: bool)

  /** `managed` tasks belong to an external integration. */
  datatype Task = Task(project: ProjectId, active: bool, managed: bool)

  datatype Directory = Directory(
    users: map<UserId, User>,
    devices: map<DeviceId, Device>,
    projects: map<ProjectId, bool>,
    members: map<(ProjectId, UserId), ProjectRole>,
    tasks: map<TaskId, Task>,
    lockedDays: set<(UserId, int)>,
    desktopOnly: set<UserId>)

  datatype Session = Session(
    user: Option<UserId>,
    device: DeviceId,
    project: Option<ProjectId>,
    task: Option<TaskId>,
    status: Status,
    started: int,
    ended: Option<int>,
    updated: int)
  {
    predicate Open() { status != Stopped }
  }

  datatype Segment = Segment(session: SessionId, start: int, end: Option<int>)
  {
    predicate Open() { end.None? }
  }

  /** The durable record that an agent's state event was applied. */
  datatype Receipt = Receipt(
    observed: int,
    received: int,
    status: Status,
    task: Option<TaskId>,
    project: Option<ProjectId>,
    idle: nat,
    interval: nat,
    session: Option<SessionId>)
}
