/**
 * The start of `main` in `src/main.rs`: when Cargo runs the plugin as
 * `cargo reaper ...` it passes `reaper` as the first argument, which is
 * dropped before the arguments are parsed.
 */
module Cli {
  /** The argument Cargo inserts after the program name. */
  const CARGO_INSERTED: string := "reaper"

  /**
   * `args.remove(1)` when `args[1]` is `reaper`. Putting `reaper` back at
   * index 1 gives the original arguments, so exactly that one argument is
   * gone and the rest keep their order; any other argument list is kept.
   */
  method StripCargoArg(args: seq<string>) returns (r: seq<string>)
    ensures |args| > 1 && args[1] == CARGO_INSERTED ==>
      |r| == |args| - 1 && r[..1] + [CARGO_INSERTED] + r[1..] == args
    ensures !(|args| > 1 && args[1] == CARGO_INSERTED) ==> r == args
  {
    r := args;
    if |r| > 1 && r[1] == CARGO_INSERTED {
      r := r[..1] + r[2..];
      assert r[..1] + [CARGO_INSERTED] + r[1..] == args[..1] + [args[1]] + args[2..];
      assert args == args[..1] + [args[1]] + args[2..];
    }
  }
}
