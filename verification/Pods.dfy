/**
 Worker pods as the controller sees and builds them: the classifiers of
 src/controller/plan.rs and the image part of src/controller/pod.rs.
 */
module Pods {
  import opened Basics

  datatype Waiting = Waiting(reason: Option<string>, message: Option<string>)

  datatype ContainerStatus = ContainerStatus(name: string, image: string, restarts: int, ready: bool,
                                             waiting: Option<Waiting>, running: bool, terminated: bool,
                                             lastTerminated: bool)

  datatype Condition = Condition(kind: string, status: string, reason: Option<string>, message: Option<string>)

  datatype PodStatus = PodStatus(phase: Option<string>, conditions: seq<Condition>,
                                 initContainers: seq<ContainerStatus>, containers: seq<ContainerStatus>)

  datatype Container = Container(name: string, image: Option<string>)

  /** The kinds of object a session's network policy is made of, per provider. */
  datatype PolicyKind = CiliumPolicy | IpPolicy | FqdnPolicy

  /**
   `uid` identifies the object across pods of one name; `governed` holds the
   policy objects its network-policy label stands for (none: no label); `pin`
   is the snapshot it should restore from.
   */
  datatype Pod = Pod(name: string, uid: nat, created: Option<int>, deleting: bool, governed: seq<PolicyKind>,
                     pin: Option<string>, containers: seq<Container>, status: Option<PodStatus>)

  datatype FailureReason = ImagePullTimeout | ImagePullError | SchedulingTimeout

  datatype StartupFailure = StartupFailure(reason: FailureReason, image: Option<string>, message: string)

  function Positive(n: int): nat { if n < 0 then 0 else n }

  function SumRestarts(statuses: seq<ContainerStatus>): nat {
    if statuses == [] then 0 else Positive(statuses[0].restarts) + SumRestarts(statuses[1..])
  }

  function RestartCount(pod: Pod): nat {
    if pod.status.None? then 0 else SumRestarts(pod.status.value.containers)
  }

  predicate InPhase(pod: Pod, phase: string) { pod.status.Some? && pod.status.value.phase == Some(phase) }

  predicate Retrying(reason: string) { reason in ["ErrImagePull", "ImagePullBackOff", "ImageInspectError"] }

  predicate Fatal(reason: string) { reason in ["InvalidImageName", "ErrImageNeverPull"] }

  predicate HasRun(status: ContainerStatus) {
    status.restarts > 0 || status.running || status.terminated || status.lastTerminated
  }

  predicate WorkerRan(pod: Pod, container: string)
    requires pod.status.Some?
  {
    exists cs <- pod.status.value.containers :: cs.name == container && HasRun(cs)
  }

  predicate TimedOut(pod: Pod, now: int, timeout: int) {
    pod.created.Some? && now - pod.created.value >= timeout
  }

  /** Init containers first, as the classifier visits them. */
  function Statuses(pod: Pod): seq<ContainerStatus>
    requires pod.status.Some?
  {
    pod.status.value.initContainers + pod.status.value.containers
  }

  predicate WaitsFor(cs: ContainerStatus, reason: string) {
    cs.waiting.Some? && cs.waiting.value.reason == Some(reason)
  }

  predicate PullFails(cs: ContainerStatus, timedOut: bool) {
    && cs.waiting.Some? && cs.waiting.value.reason.Some?
    && var reason := cs.waiting.value.reason.value;
    Fatal(reason) || (timedOut && Retrying(reason))
  }

  function PullFailure(cs: ContainerStatus): StartupFailure
    requires cs.waiting.Some? && cs.waiting.value.reason.Some?
  {
    var reason, message := cs.waiting.value.reason.value, cs.waiting.value.message;
    StartupFailure(if Fatal(reason) then ImagePullError else ImagePullTimeout,
                   if cs.image == "" then None else Some(cs.image),
                   if message.Some? then reason + ": " + message.value else reason)
  }

  predicate Unscheduled(c: Condition) { c.kind == "PodScheduled" && c.status == "False" }

  function SchedulingFailure(c: Condition): StartupFailure {
    StartupFailure(SchedulingTimeout, None,
                   match (c.reason, c.message)
                   case (Some(reason), Some(message)) => reason + ": " + message
                   case (Some(reason), None) => reason
                   case (None, Some(message)) => message
                   case (None, None) => "Unschedulable")
  }

  /** The first element satisfying a test, by index; |s| when there is none. */
  function FirstPull(s: seq<ContainerStatus>, timedOut: bool): (i: nat)
    ensures i <= |s| && (i < |s| ==> PullFails(s[i], timedOut))
    ensures forall j :: 0 <= j < i ==> !PullFails(s[j], timedOut)
  {
    if s == [] then 0 else if PullFails(s[0], timedOut) then 0
    else assert forall j :: 1 <= j < |s| ==> s[j] == s[1..][j - 1]; 1 + FirstPull(s[1..], timedOut)
  }

  function FirstUnscheduled(s: seq<Condition>): (i: nat)
    ensures i <= |s| && (i < |s| ==> Unscheduled(s[i]))
    ensures forall j :: 0 <= j < i ==> !Unscheduled(s[j])
  {
    if s == [] then 0 else if Unscheduled(s[0]) then 0
    else assert forall j :: 1 <= j < |s| ==> s[j] == s[1..][j - 1]; 1 + FirstUnscheduled(s[1..])
  }

  function StartupFailureOf(pod: Pod, container: string, now: int, timeout: int): Option<StartupFailure> {
    if pod.status.None? || WorkerRan(pod, container) then None
    else
      var timedOut := TimedOut(pod, now, timeout);
      var i := FirstPull(Statuses(pod), timedOut);
      if i < |Statuses(pod)| then Some(PullFailure(Statuses(pod)[i]))
      else if timedOut && InPhase(pod, "Pending") then
        var k := FirstUnscheduled(pod.status.value.conditions);
        if k < |pod.status.value.conditions| then Some(SchedulingFailure(pod.status.value.conditions[k])) else None
      else None
  }

  method PodStartupFailure(pod: Pod, container: string, now: int, timeout: int) returns (r: Option<StartupFailure>)
    ensures r == StartupFailureOf(pod, container, now, timeout)
  {
    hide PullFailure, SchedulingFailure, HasRun;
    if pod.status.None? { return None; }
    var status := pod.status.value;
    for i := 0 to |status.containers|
      invariant forall j :: 0 <= j < i ==> !(status.containers[j].name == container && HasRun(status.containers[j]))
    {
      if status.containers[i].name == container && HasRun(status.containers[i]) {
        assert status.containers[i] in status.containers;
        return None;
      }
    }
    var timedOut := pod.created.Some? && now - pod.created.value >= timeout;
    var all := Statuses(pod);
    for i := 0 to |all|
      invariant forall j :: 0 <= j < i ==> !PullFails(all[j], timedOut)
    {
      if PullFails(all[i], timedOut) {
        return Some(PullFailure(all[i]));
      }
    }
    if timedOut && InPhase(pod, "Pending") {
      for i := 0 to |status.conditions|
        invariant forall j :: 0 <= j < i ==> !Unscheduled(status.conditions[j])
      {
        if Unscheduled(status.conditions[i]) {
          return Some(SchedulingFailure(status.conditions[i]));
        }
      }
    }
    r := None;
  }

  /**
   When a pod is reported as unable to start: only if the worker container
   itself never ran, and then at once for an image that can never be pulled,
   or after the timeout for one still being pulled or a pod still unscheduled.
   */
  lemma ReportedExactlyWhenStuck(pod: Pod, container: string, now: int, timeout: int)
    ensures StartupFailureOf(pod, container, now, timeout).Some? <==>
      && pod.status.Some?
      && var status := pod.status.value;
      && (forall cs <- status.containers :: cs.name == container ==>
            cs.restarts <= 0 && !cs.running && !cs.terminated && !cs.lastTerminated)
      && (|| (exists cs <- status.initContainers + status.containers, reason ::
                WaitsFor(cs, reason) && reason in {"InvalidImageName", "ErrImageNeverPull"})
          || (&& pod.created.Some? && now >= pod.created.value + timeout
              && (|| (exists cs <- status.initContainers + status.containers, reason ::
                        WaitsFor(cs, reason) && reason in {"ErrImagePull", "ImagePullBackOff", "ImageInspectError"})
                  || (status.phase == Some("Pending") && exists c <- status.conditions :: c.kind == "PodScheduled" && c.status == "False"))))
  {
    if pod.status.Some? {
      assert forall cs <- pod.status.value.containers :: HasRun(cs)
               <==> cs.restarts > 0 || cs.running || cs.terminated || cs.lastTerminated;
      assert forall c: Condition :: Unscheduled(c) <==> c.kind == "PodScheduled" && c.status == "False";
      var timedOut := TimedOut(pod, now, timeout);
      var all := Statuses(pod);
      var i := FirstPull(all, timedOut);
      if i < |all| {
        assert all[i] in all && WaitsFor(all[i], all[i].waiting.value.reason.value);
      }
      assert forall cs <- all, reason :: WaitsFor(cs, reason) && (Fatal(reason) || (timedOut && Retrying(reason)))
                                        ==> PullFails(cs, timedOut);
      var k := FirstUnscheduled(pod.status.value.conditions);
      assert k < |pod.status.value.conditions| ==> pod.status.value.conditions[k] in pod.status.value.conditions;
    }
  }

  /** A text with its detail, if there is one. */
  predicate Says(text: string, head: string, detail: Option<string>) {
    if detail.None? then text == head else text == head + ": " + detail.value
  }

  /**
   What a reported failure says: that an image cannot be pulled at all, with the
   image and the words of the container that waits for it; that pulling it took
   too long; or, with no image to name, that no node was found in time. Of several
   containers or conditions it is the first that speaks.
   */
  lemma FailureSaysWhy(pod: Pod, container: string, now: int, timeout: int, f: StartupFailure)
    requires StartupFailureOf(pod, container, now, timeout) == Some(f)
    ensures !f.reason.ImagePullError? ==> pod.created.Some? && now >= pod.created.value + timeout
    ensures !f.reason.SchedulingTimeout? ==>
              var all := pod.status.value.initContainers + pod.status.value.containers;
              exists i, reason ::
                && 0 <= i < |all| && WaitsFor(all[i], reason)
                && reason in (if f.reason.ImagePullError? then {"InvalidImageName", "ErrImageNeverPull"}
                              else {"ErrImagePull", "ImagePullBackOff", "ImageInspectError"})
                && Says(f.message, reason, all[i].waiting.value.message)
                && f.image == (if all[i].image == "" then None else Some(all[i].image))
                && forall j :: 0 <= j < i ==> !PullFails(all[j], TimedOut(pod, now, timeout))
    ensures f.reason.SchedulingTimeout? ==>
              && f.image == None && pod.status.value.phase == Some("Pending")
              && var cs := pod.status.value.conditions;
              exists k ::
                && 0 <= k < |cs| && cs[k].kind == "PodScheduled" && cs[k].status == "False"
                && (if cs[k].reason.Some? then Says(f.message, cs[k].reason.value, cs[k].message)
                    else f.message == cs[k].message.GetOr("Unschedulable"))
                && forall j :: 0 <= j < k ==> !Unscheduled(cs[j])
  {
    var all, timedOut := Statuses(pod), TimedOut(pod, now, timeout);
    var i := FirstPull(all, timedOut);
    if i < |all| {
      assert WaitsFor(all[i], all[i].waiting.value.reason.value);
    } else {
      var k := FirstUnscheduled(pod.status.value.conditions);
      assert Unscheduled(pod.status.value.conditions[k]);
    }
  }

  lemma {:induction false} RestartsOfBoth(a: seq<ContainerStatus>, b: seq<ContainerStatus>)
    ensures SumRestarts(a + b) == SumRestarts(a) + SumRestarts(b)
  {
    if a == [] {
      assert a + b == b;
    } else {
      assert (a + b)[1..] == a[1..] + b;
      RestartsOfBoth(a[1..], b);
    }
  }

  /** Each container adds its restarts, init containers do not count, and a negative count is none. */
  lemma RestartsAddUp(pod: Pod, before: seq<ContainerStatus>, cs: ContainerStatus, after: seq<ContainerStatus>)
    requires pod.status.Some? && pod.status.value.containers == before + [cs] + after
    ensures RestartCount(pod) == RestartCount(pod.(status := Some(pod.status.value.(containers := before + after)))) + Max(cs.restarts, 0)
    ensures RestartCount(pod.(status := None)) == 0 && RestartCount(pod.(status := Some(pod.status.value.(containers := [])))) == 0
  {
    RestartsOfBoth(before + [cs], after);
    RestartsOfBoth(before, [cs]);
    RestartsOfBoth(before, after);
    assert [cs][1..] == [];
  }

  predicate CrashLooping(pod: Pod) {
    pod.status.Some? &&
    exists cs <- pod.status.value.containers :: WaitsFor(cs, "CrashLoopBackOff") || (cs.restarts > 0 && !cs.ready)
  }

  function FirstNamed(containers: seq<Container>, name: string): (i: nat)
    ensures i <= |containers| && (i < |containers| ==> containers[i].name == name)
    ensures forall j :: 0 <= j < i ==> containers[j].name != name
  {
    if containers == [] then 0 else if containers[0].name == name then 0
    else assert forall j :: 1 <= j < |containers| ==> containers[j] == containers[1..][j - 1];
         1 + FirstNamed(containers[1..], name)
  }

  function WorkerImage(pod: Pod, container: string): Option<string> {
    var i := FirstNamed(pod.containers, container);
    if i < |pod.containers| then pod.containers[i].image else None
  }

  predicate Contains(text: string, part: string) {
    part <= text || (text != "" && Contains(text[1..], part))
  }

  predicate RestoredFrom(c: Condition, pin: string) {
    c.kind == "PodRestored" && c.status == "True" && c.message.Some? && Contains(c.message.value, pin)
  }

  /** A restore was expected, and the pod does not show it (`verify_restore`). */
  predicate ColdStarted(pod: Pod) {
    pod.pin.Some? && !(pod.status.Some? && exists c <- pod.status.value.conditions :: RestoredFrom(c, pod.pin.value))
  }

  predicate Occurs(text: string, part: string) { exists i, j :: 0 <= i <= j <= |text| && text[i..j] == part }

  lemma OccursInRest(text: string, part: string)
    requires text != "" && Occurs(text, part) && !(part <= text)
    ensures Occurs(text[1..], part)
  {
    var i, j :| 0 <= i <= j <= |text| && text[i..j] == part;
    assert i > 0 && text[1..][i - 1..j - 1] == part;
  }

  lemma OccursStill(text: string, part: string)
    requires text != "" && Occurs(text[1..], part)
    ensures Occurs(text, part)
  {
    var i, j :| 0 <= i <= j <= |text[1..]| && text[1..][i..j] == part;
    assert text[i + 1..j + 1] == part;
  }

  lemma {:induction false} ContainsMeans(text: string, part: string)
    ensures Contains(text, part) <==> Occurs(text, part)
  {
    if part <= text {
      assert text[0..|part|] == part;
    } else if text == "" {
      assert Occurs(text, part) ==> part == "";
    } else {
      hide Occurs;
      ContainsMeans(text[1..], part);
      if Occurs(text[1..], part) { OccursStill(text, part); }
      if Occurs(text, part) { OccursInRest(text, part); }
    }
  }

  /** A pod with a pin counts as cold-started until a true `PodRestored` condition names that snapshot. */
  lemma ColdStartedExactlyWhen(pod: Pod)
    ensures ColdStarted(pod) <==>
            && pod.pin.Some?
            && !(&& pod.status.Some?
                 && exists c <- pod.status.value.conditions ::
                      && c.kind == "PodRestored" && c.status == "True" && c.message.Some?
                      && Occurs(c.message.value, pod.pin.value))
  {
    if pod.pin.Some? && pod.status.Some? {
      hide Occurs;
      forall c | c in pod.status.value.conditions && c.message.Some?
        ensures Contains(c.message.value, pod.pin.value) <==> Occurs(c.message.value, pod.pin.value)
      {
        ContainsMeans(c.message.value, pod.pin.value);
      }
    }
  }

  // ---------------------------------------------------------- building a pod

  /** The image fields of a session's `spec`. */
  datatype ImageSpec = ImageSpec(image: Option<string>, imageBuild: bool)

  function ImageOverride(spec: ImageSpec, buildImage: Option<string>): Option<string> {
    if spec.image.Some? then spec.image else if spec.imageBuild then buildImage else None
  }

  function EffectiveImage(spec: ImageSpec, poolImage: string, buildImage: Option<string>): string {
    ImageOverride(spec, buildImage).GetOr(poolImage)
  }

  /** Layer 2 of `build_worker_pod`: the worker container, found or added, gets its image. */
  method PlaceWorker(template: seq<Container>, name: string, image: string) returns (containers: seq<Container>)
    ensures containers == WithWorker(template, name, image)
  {
    containers := template;
    for i := 0 to |template|
      invariant containers == template
      invariant forall j :: 0 <= j < i ==> template[j].name != name
    {
      if containers[i].name == name {
        containers := containers[i := containers[i].(image := Some(image))];
        return;
      }
    }
    containers := containers + [Container(name, Some(image))];
  }

  function WithWorker(template: seq<Container>, name: string, image: string): seq<Container> {
    var i := FirstNamed(template, name);
    if i < |template| then template[i := template[i].(image := Some(image))]
    else template + [Container(name, Some(image))]
  }

  /** Whatever the template holds, the worker found in the built pod is the one whose image was set. */
  lemma WorkerKeepsItsImage(template: seq<Container>, name: string, image: string, pod: Pod)
    requires pod.containers == WithWorker(template, name, image)
    ensures WorkerImage(pod, name) == Some(image)
    ensures |pod.containers| == |template| + if exists t <- template :: t.name == name then 0 else 1
    ensures forall i :: 0 <= i < |template| && i != FirstNamed(template, name) ==> pod.containers[i] == template[i]
    ensures pod.containers[FirstNamed(template, name)] == Container(name, Some(image))
  {
    var i, k := FirstNamed(template, name), FirstNamed(pod.containers, name);
    assert pod.containers[i].name == name;
    if k < i {
      assert false;
    }
  }
}
