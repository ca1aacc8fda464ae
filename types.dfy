/** The data model shared by the decision engine: the tokenizer's command record, the
    result of unwrapping a wrapper, the three-valued permission with its rank order, the
    permission result produced by the rule store, the classifiers and the aggregator, and
    the external path-resolution facilities the classifiers depend on. */
module Types {
  import opened Common

  /** One simple command as produced by the tokenizer: name, verbatim argument tokens,
      and the source text it was cut from. */
  datatype Command = Command(name: string, args: seq<string>, text: string)

  /** What a wrapper resolver extracts: the inner command line, the remote host, and a
      tag naming the wrapper. */
  datatype UnwrapResult = UnwrapResult(innerCommand: Option<string>, host: Option<string>, wrapper: string)

  datatype Permission = Allow | Ask | Deny

  /** The total order Allow < Ask < Deny, as a rank. */
  function Rank(p: Permission): nat {
    match p
    case Allow => 0
    case Ask => 1
    case Deny => 2
  }

  datatype PermissionResult = PermissionResult(permission: Permission, reason: string, suggestion: Option<string>)

  /** The external path facilities: `realpath -m -- path` (None when the tool cannot be
      run, fails, or prints nothing) and `Path::parent` followed by `to_str`. */
  datatype PathOps = PathOps(resolve: string -> Option<string>, parent: string -> Option<string>)

  /** The sanity check both classifiers apply before resolving: the path is non-empty
      and holds no NUL and no newline. */
  predicate SanePath(path: string) {
    path != [] && '\0' !in path && '\n' !in path
  }

  /** `r` is the resolved location that decides a path's safety: the resolution of the
      path itself, or, when that fails, the resolution of its non-empty parent. */
  predicate DecidingPath(ops: PathOps, path: string, r: string) {
    ops.resolve(path) == Some(r) ||
    (ops.resolve(path).None? && ops.parent(path).Some? && ops.parent(path).value != [] &&
     ops.resolve(ops.parent(path).value) == Some(r))
  }

  /** At most one location decides. */
  lemma DecidingPathUnique(ops: PathOps, path: string, r1: string, r2: string)
    requires DecidingPath(ops, path, r1) && DecidingPath(ops, path, r2)
    ensures r1 == r2
  {
  }

  /** A dash-led argument: an option or an option cluster. */
  predicate IsFlag(arg: string) {
    StartsWith(arg, "-")
  }

  /** The arguments that do not begin with `-`, in order: the file operands the
      classifiers examine. */
  function NonFlagArgs(args: seq<string>): (files: seq<string>)
    ensures |files| <= |args|
    ensures forall a :: a in files <==> a in args && !IsFlag(a)
  {
    if args == [] then []
    else if IsFlag(args[0]) then NonFlagArgs(args[1..])
    else [args[0]] + NonFlagArgs(args[1..])
  }

  /** The selection keeps order: it distributes over concatenation, so it is the
      order-preserving filter of the arguments. */
  lemma {:induction false} NonFlagArgsAppend(a: seq<string>, b: seq<string>)
    ensures NonFlagArgs(a + b) == NonFlagArgs(a) + NonFlagArgs(b)
  {
    if a == [] {
      assert a + b == b;
    } else {
      assert (a + b)[0] == a[0];
      assert (a + b)[1..] == a[1..] + b;
      NonFlagArgsAppend(a[1..], b);
    }
  }
}
