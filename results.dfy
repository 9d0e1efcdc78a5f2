/** Option, Result and the exceptions the core raises. */
module Results {
  import opened Models

  datatype Option<+T> = None | Some(value: T) {
    function GetOr(default: T): T {
      match this
      case Some(v) => v
      case None => default
    }
  }

  /** The exceptions raised by the modelled code. Each case names its raise site. */
  datatype Error =
      /** role_filter.py:16-18, ValueError "Unknown role: <role>. Available: <keys>" */
    | UnknownRole(role: string, available: seq<string>)
      /** loader.py:118-130, ValueError "Invalid <field> '<choice>' in project <name>" */
    | InvalidChoice(field: string, choice: Value, project: Value)
      /** config.py:31-32, ValueError "Unknown template ..." */
    | UnknownTemplate(template: Value)
      /** config.py:33-34, ValueError "Unsupported locale ..." */
    | UnsupportedLocale(locale: Value)
      /** config.py:45-46, ValueError "Config file <path> must contain a YAML mapping" */
    | NotAMapping(path: string)
      /** langchain_clients.py:106-107, ValueError "Unknown model: <name>" */
    | UnknownModel(name: string)
      /** llm_polisher.py:85-90, ValueError "Failed to polish project '<name>': <cause>" */
    | PolishFailed(project: Value, cause: string)
      /** A TypeError raised by a Python built-in (iteration, hashing, `**` unpacking, ...) */
    | TypeError(reason: string)
      /** An AttributeError (`.get` or `.copy` on a value that has none) */
    | AttributeError(reason: string)
      /** A KeyError from `d[key]` */
    | KeyError(key: string)

  /** The outcome of a call that either returns a value or raises. */
  datatype Result<+T> = Ok(value: T) | Err(error: Error) {
    predicate IsFailure() {
      Err?
    }

    function PropagateFailure<U>(): Result<U>
      requires Err?
    {
      Err(error)
    }

    function Extract(): T
      requires Ok?
    {
      value
    }

    function ValueOr(default: T): T {
      if Ok? then value else default
    }
  }

  /** A comprehension or loop that applies `f` to each element in order and stops
      at the first exception. */
  function MapResult<A, B>(xs: seq<A>, f: A -> Result<B>): (r: Result<seq<B>>)
    ensures r.Ok? <==> forall i | 0 <= i < |xs| :: f(xs[i]).Ok?
    ensures r.Ok? ==> |r.value| == |xs| && forall i | 0 <= i < |xs| :: f(xs[i]) == Ok(r.value[i])
    ensures r.Err? ==> exists i | 0 <= i < |xs| ::
              (forall j | 0 <= j < i :: f(xs[j]).Ok?) && f(xs[i]) == Err(r.error)
    decreases |xs|
  {
    if |xs| == 0 then Ok([])
    else
      match f(xs[0])
      case Err(e) => Err(e)
      case Ok(y) =>
        match MapResult(xs[1..], f)
        case Err(e) =>
          assert forall j | 1 <= j < |xs| :: xs[1..][j - 1] == xs[j];
          Err(e)
        case Ok(ys) =>
          assert forall j | 1 <= j < |xs| :: xs[1..][j - 1] == xs[j];
          Ok([y] + ys)
  }

  /** The error of `MapResult` is the one raised by the first failing element. */
  lemma MapResultFirstError<A, B>(xs: seq<A>, f: A -> Result<B>, k: nat)
    requires k < |xs| && f(xs[k]).Err?
    requires forall j | 0 <= j < k :: f(xs[j]).Ok?
    ensures MapResult(xs, f) == Err(f(xs[k]).error)
  {
    var r := MapResult(xs, f);
    var i :| 0 <= i < |xs| && (forall j | 0 <= j < i :: f(xs[j]).Ok?) && f(xs[i]) == Err(r.error);
    assert i == k;
  }

  /** When every element succeeds, `MapResult` returns their results in order. */
  lemma MapResultAllOk<A, B>(xs: seq<A>, f: A -> Result<B>, ys: seq<B>)
    requires |ys| == |xs| && forall i | 0 <= i < |xs| :: f(xs[i]) == Ok(ys[i])
    ensures MapResult(xs, f) == Ok(ys)
  {
    var r := MapResult(xs, f);
    assert r.Ok?;
    assert r.value == ys;
  }

  /** One more successful element extends the results of a prefix. */
  lemma {:induction false} MapResultExtend<A, B>(xs: seq<A>, f: A -> Result<B>, i: nat, ys: seq<B>, y: B)
    requires i < |xs| && MapResult(xs[..i], f) == Ok(ys) && f(xs[i]) == Ok(y)
    ensures MapResult(xs[..i + 1], f) == Ok(ys + [y])
  {
    assert forall k | 0 <= k < i :: xs[..i + 1][k] == xs[..i][k];
    MapResultAllOk(xs[..i + 1], f, ys + [y]);
  }

  /** After a successful prefix, the first failing element decides the outcome. */
  lemma {:induction false} MapResultStops<A, B>(xs: seq<A>, f: A -> Result<B>, i: nat, ys: seq<B>)
    requires i < |xs| && MapResult(xs[..i], f) == Ok(ys) && f(xs[i]).Err?
    ensures MapResult(xs, f) == Err(f(xs[i]).error)
  {
    assert forall k | 0 <= k < i :: xs[..i][k] == xs[k];
    MapResultFirstError(xs, f, i);
  }
}
