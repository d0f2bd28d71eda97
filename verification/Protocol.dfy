/** The vocabulary shared by every part of the coordinator: identifiers, the
    protocol's enumerations and the stake table that worker scoring rests on. */
module Protocol {

  datatype Option<+T> = None | Some(value: T)

  /** The first position of k, or |ks|. */
  function IndexOf<K(==)>(ks: seq<K>, k: K): (i: nat)
    ensures i <= |ks|
    ensures i < |ks| ==> ks[i] == k
    ensures forall j :: 0 <= j < i ==> ks[j] != k
  {
    if ks == [] then 0 else if ks[0] == k then 0 else 1 + IndexOf(ks[1..], k)
  }

  type JobId = string
  type Pubkey = string

  datatype JobType = LlmInfer | Task

  /** The two tiers a commit endpoint can pass on. */
  datatype Policy = Fast | Cheap

  datatype Privacy = Public | Private

  datatype ProviderType = Desktop | Seeker

  datatype StakeTier = Open | Verified | Sentinel

  /** Demo jobs are recognised by their id alone; they have no row in the jobs table. */
  predicate IsDemo(id: JobId) {
    "demo-" <= id
  }

  function StakeBonus(tier: StakeTier): real {
    match tier
    case Open => 0.0
    case Verified => 5.0
    case Sentinel => 10.0
  }

  function RepMultiplier(tier: StakeTier): real {
    match tier
    case Open => 1.0
    case Verified => 1.5
    case Sentinel => 2.0
  }

  function Rank(tier: StakeTier): nat {
    match tier
    case Open => 0
    case Verified => 1
    case Sentinel => 2
  }

  /** The body of a commit request, before validation. The empty string stands for
      a missing field: both fail the same test in the request handler. */
  datatype CommitBody = CommitBody(jobType: string, hasPayload: bool, privacy: Option<string>, user: string)

  function ParseJobType(text: string): Option<JobType> {
    if text == "LLM_INFER" then Some(LlmInfer)
    else if text == "TASK" then Some(Task)
    else None
  }

  /** Only the exact text PRIVATE makes a job private; everything else is handled as public. */
  function ParsePrivacy(text: Option<string>): Privacy {
    if text == Some("PRIVATE") then Private else Public
  }

  /** The job type of an acceptable request, None for a request answered with status 400. */
  function Validate(body: CommitBody): Option<JobType> {
    if body.jobType == "" || !body.hasPayload || body.user == "" then None
    else ParseJobType(body.jobType)
  }
}
