/** The two collaborator contracts the pipeline depends on, the build/registry
client and the remote execution client, seen from the caller's side: each call
the pipeline makes is a `Call`, and whatever implements the collaborators
answers it with a `Reply`.
 */
module Collaborators {
  import opened Errors
  import opened Domain

  datatype Call =
    // build/registry client
    | Build(imageName: string, version: string, buildPath: string)
    | Tag(localImage: string, registryImage: string)
    | Login(host: string, username: string, password: string)
    | Push(registryImage: string)
    // remote execution client
    | Connect(target: SSHConfig)
    | Run(command: string)
    | RunWithOutput(command: string)

  /** A call either returns (with the captured output, empty for calls that
      return only an error) or fails with an error. */
  datatype Reply = Done(output: string) | Refused(cause: Error)

  /** Whatever stands behind the two interfaces: given its own state and a
      call, it answers and moves to a new state. */
  type Handler<!S> = (S, Call) -> (S, Reply)

  predicate IsDockerCall(c: Call)
  {
    c.Build? || c.Tag? || c.Login? || c.Push?
  }

  /** The state a handler ends in and the replies it gives when asked `calls`
      one after another. */
  function Drive<S>(h: Handler<S>, s: S, calls: seq<Call>): (r: (S, seq<Reply>))
    ensures |r.1| == |calls|
    decreases |calls|
  {
    if calls == [] then (s, [])
    else
      var (s1, reply) := h(s, calls[0]);
      var (s2, rest) := Drive(h, s1, calls[1..]);
      (s2, [reply] + rest)
  }

  /** Asking two batches of calls in turn is asking them all at once. */
  lemma {:induction false} DriveAppend<S>(h: Handler<S>, s: S, first: seq<Call>, second: seq<Call>)
    ensures var (mid, r1) := Drive(h, s, first);
      var (last, r2) := Drive(h, mid, second);
      Drive(h, s, first + second) == (last, r1 + r2)
    decreases |first|
  {
    if first != [] {
      var (s1, reply) := h(s, first[0]);
      assert (first + second)[0] == first[0];
      assert (first + second)[1..] == first[1..] + second;
      DriveAppend(h, s1, first[1..], second);
      var (mid, r1) := Drive(h, s1, first[1..]);
      var (last, r2) := Drive(h, mid, second);
      assert Drive(h, s, first) == (mid, [reply] + r1);
      assert Drive(h, s, first + second) == (last, [reply] + (r1 + r2));
      assert [reply] + (r1 + r2) == ([reply] + r1) + r2;
    } else {
      assert first + second == second;
      assert Drive(h, s, first) == (s, []);
      var r2 := Drive(h, s, second).1;
      assert [] + r2 == r2;
    }
  }
}
