/**
 * The values the cluster commands work on: the persisted state document,
 * the observations of the node controllers, the command-line arguments,
 * and what a command leaves behind (the actions it issued, the document it
 * saved, its error).
 */
module State {
  import opened Wrappers

  /** The document's `State` field, and a node record's `Status`. */
  datatype Lifecycle = Running | Stopped

  /** The document's `Manage` field: no such key, a key holding null, or a string. */
  datatype Setting = Missing | Null | Text(name: string)

  /** One entry of the document's `Nodes` mapping. */
  datatype NodeRecord = NodeRecord(status: Lifecycle, index: int)

  /** The persisted cluster-state document. */
  datatype ClusterState = ClusterState(lifecycle: Lifecycle, manage: Setting, nodes: map<string, NodeRecord>)

  /** The two node controllers a command can select. */
  datatype Backend = Docker | Daemon

  /** What a command asks of the node controller, in the order it asks. */
  datatype Action =
    | StartNode(name: string, httpPort: int, gossipPort: int, genesis: bool)
    | StopNode(name: string)
    | QueryStatus(name: string)

  datatype Error =
    | InvalidCommand(command: string)   // unknown cluster subcommand
    | ManageConflict(recorded: Setting) // start with another Manage while Running
    | InvalidManage(value: Setting)     // a Manage value that names no controller
    | NoStateFile                       // stop without a state document
    | ManageKeyMissing                  // stop on a document without a Manage key
    | ManagementFailure(wrapped: bool)  // the controller failed; wrapped = re-raised as a CLI error

  datatype Result<+T> = Ok(value: T) | Err(error: Error)

  /**
   * What one node controller reports: the node names it knows (None when
   * listing them fails), the names it reports as running, and whether its
   * settling step (`update`) succeeds.
   */
  datatype Driver = Driver(names: Option<seq<string>>, running: set<string>, updateOk: bool)

  /** The observations of both controllers; a command sees the one it selects. */
  datatype Drivers = Drivers(docker: Driver, daemon: Driver) {
    function For(b: Backend): Driver {
      match b
      case Docker => docker
      case Daemon => daemon
    }
  }

  /** The parsed arguments of `cluster <command>`. */
  datatype Args = Args(command: string, count: int, manage: Option<string>, nodeNames: seq<string>)

  /**
   * The effect of one command: the controller it selected, the actions it
   * issued, the document it saved (None: the file was not written), whether
   * it reached the settling step, and the error it ended with.
   */
  datatype Outcome = Outcome(
    backend: Option<Backend>,
    actions: seq<Action>,
    saved: Option<ClusterState>,
    updated: bool,
    error: Option<Error>)

  /** A command that failed before it issued or wrote anything. */
  function Failed(backend: Option<Backend>, e: Error): Outcome {
    Outcome(backend, [], None, false, Some(e))
  }
}
