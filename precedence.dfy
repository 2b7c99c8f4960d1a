/** The rule every panel applies to the hooks it depends on: any resource
  * loading shows the spinner; otherwise the first resource (in the panel's
  * declaration order) with an error shows its message, with that resource's
  * refetch as the retry; otherwise the content is rendered. */
module Precedence {
  import opened Seqs
  import UseApi

  /** What a panel reads of one hook: `loading` and `error`. */
  datatype ResourceView = ResourceView(loading: bool, error: Option<string>)

  function ViewOf<T>(s: UseApi.HookState<T>): (v: ResourceView)
    ensures v.loading == s.loading && v.error == s.error
  {
    ResourceView(s.loading, s.error)
  }

  /** `if (error)`: JavaScript truthiness, so an empty message counts as no error. */
  predicate Failed(r: ResourceView)
  {
    r.error.Some? && r.error.value != ""
  }

  predicate Loading(r: ResourceView)
  {
    r.loading
  }

  predicate Settled(r: ResourceView)
  {
    !r.loading && !Failed(r)
  }

  /** The combined status: spinner, the error of resource `index`, or all ready. */
  datatype Decision = Spin | ShowError(index: nat, message: string) | AllReady

  function Merge(rs: seq<ResourceView>): (d: Decision)
    ensures d.Spin? <==> exists i :: 0 <= i < |rs| && rs[i].loading
    ensures d.ShowError? ==>
              && d.index < |rs|
              && Failed(rs[d.index]) && rs[d.index].error == Some(d.message)
              && (forall j :: 0 <= j < |rs| ==> !rs[j].loading)
              && (forall j :: 0 <= j < d.index ==> !Failed(rs[j]))
    ensures d.AllReady? <==> forall j :: 0 <= j < |rs| ==> Settled(rs[j])
  {
    match FindIndex(rs, Loading)
    case Some(_) => Spin
    case None =>
      match FindIndex(rs, Failed)
      case Some(i) => ShowError(i, rs[i].error.value)
      case None => AllReady
  }

  /** Pending outranks error whatever the order: a loading resource anywhere
    * hides every error, and ready content needs every resource ready. */
  lemma LoadingOutranksErrors(rs: seq<ResourceView>, i: nat, j: nat)
    requires i < |rs| && j < |rs|
    requires rs[i].loading && Failed(rs[j])
    ensures Merge(rs) == Spin
  {
  }

  /** The error shown is decided by the first failed resource alone: the
    * resources after it do not matter. */
  lemma {:induction false} FirstErrorWins(rs: seq<ResourceView>, i: nat, rest: seq<ResourceView>)
    requires i < |rs| && Failed(rs[i])
    requires forall j :: 0 <= j < |rs| ==> !rs[j].loading
    requires forall j :: 0 <= j < |rest| ==> !rest[j].loading
    requires forall j :: 0 <= j < i ==> !Failed(rs[j])
    ensures Merge(rs + rest) == ShowError(i, rs[i].error.value)
    ensures Merge(rs[..i + 1]) == Merge(rs + rest)
  {
    var all := rs + rest;
    assert forall j :: 0 <= j < |all| ==> !all[j].loading by {
      forall j | 0 <= j < |all| ensures !all[j].loading {
        if j < |rs| { assert all[j] == rs[j]; } else { assert all[j] == rest[j - |rs|]; }
      }
    }
    assert all[i] == rs[i];
    var pre := rs[..i + 1];
    assert pre[i] == rs[i];
  }

  /** What a panel renders. `R` names the panel's resources, for the retry handle. */
  datatype Screen<R> =
    | Spinner
    | ErrorView(message: string, retry: Option<R>)
    | NotFound(message: string)
    | Detail(santriId: string)
    | Content
}
