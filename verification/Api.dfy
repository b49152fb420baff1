/** The Application API: entities of api/v1alpha1 and the values the controller
    keeps in an Application's status. */
module Api {
  type Name = string
  type Time = nat

  datatype Option<+T> = None | Some(value: T)

  datatype AppKey = AppKey(namespace: Name, name: Name)
  datatype SecretKey = SecretKey(namespace: Name, name: Name)
  datatype SecretRef = SecretRef(name: Name, key: string)

  /** One data entry of a Secret: a values document that Helm can parse, or one it cannot. */
  datatype Document = Values(text: string) | Malformed(text: string)

  type Secret = map<string, Document>

  /** SHA-256 of the applied values document, modelled as collision free; NoHash is the empty string. */
  datatype Hash = NoHash | HashOf(text: string)

  datatype Spec = Spec(
    chart: string,
    repo: string,
    version: string,
    namespace: Name,
    valuesRef: Option<SecretRef>,
    deadline: int)

  datatype Phase = Unset | Pending | Deploying | Deployed | Degraded | RollingBack | Failed

  datatype ConditionType = Released | Healthy | Ready

  datatype Condition = Condition(
    holds: bool,
    reason: string,
    message: Text,
    generation: nat,
    transition: Time)

  /** Condition messages, opaque but for equality: one constructor per format the controller writes. */
  datatype Text =
    | Plain(text: string)
    | ReleaseAt(release: Name, revision: nat)
    | NotCreatedYet(kind: string, name: Name)
    | Observed(kind: string, name: Name, message: string)
    | NotReadyWithin(seconds: int)
    | UnhealthyRevision(revision: nat)
    | FailedRevision(revision: nat)
    | Because(context: string, subject: Name, error: Error)
    | WithNote(detail: Text, note: string)

  /** Errors a call to the API server, Helm or a parser can report. */
  datatype Error =
    | Unavailable
    | NotFound
    | AlreadyExists
    | Conflict
    | NoSuchKey(key: string)
    | Unparsable(text: string)
    | NoRevision

  datatype Status = Status(
    phase: Phase,
    conditions: map<ConditionType, Condition>,
    observed: nat,
    releaseName: Name,
    revision: nat,
    valuesHash: Hash,
    lastFailed: nat,
    started: Option<Time>)

  const EMPTY_STATUS := Status(Unset, map[], 0, "", 0, NoHash, 0, None)

  /** A stored Application: metadata, spec and status. */
  datatype App = App(
    key: AppKey,
    uid: nat,
    rv: nat,
    generation: nat,
    spec: Spec,
    deleting: bool,
    finalizer: bool,
    status: Status)

  predicate True(s: Status, t: ConditionType) {
    t in s.conditions && s.conditions[t].holds
  }

  function HashValues(values: Option<string>): Hash {
    match values
    case None => NoHash
    case Some(text) => HashOf(text)
  }

  /** The upsert of a status condition: the transition time moves only when the truth value does. */
  function SetCondition(s: Status, generation: nat, t: ConditionType, holds: bool, reason: string,
                        message: Text, now: Time): Status
  {
    var transition :=
      if t in s.conditions && s.conditions[t].holds == holds then s.conditions[t].transition else now;
    s.(conditions := s.conditions[t := Condition(holds, reason, message, generation, transition)])
  }
}
