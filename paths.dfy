/** `os.path.abspath` over POSIX paths, without the `normpath` clean-up. */
module Paths {

  import opened Results
  import opened Text

  predicate IsAbsolute(p: string) {
    |p| > 0 && p[0] == '/'
  }

  /** `os.path.join(a, b)` for a relative `b`. */
  function JoinPath(a: string, b: string): string {
    if a == "" || a[|a| - 1] == '/' then a + b else a + "/" + b
  }

  /** `os.path.abspath(p)`: an absolute path is kept; a relative one is joined
      to the working directory, whose lookup (`os.getcwd()`) may raise an
      OSError, given here as `cwd`. */
  function AbsPath(p: string, cwd: Result<string, string>): (r: Result<string, string>)
    ensures IsAbsolute(p) ==> r == Ok(p)
    ensures !IsAbsolute(p) ==> (r.Err? <==> cwd.Err?)
    ensures !IsAbsolute(p) && cwd.Err? ==> r == Err(cwd.error)
    ensures r.Ok? ==> EndsWith(r.value, p)
    ensures r.Ok? && (IsAbsolute(p) || IsAbsolute(cwd.value)) ==> IsAbsolute(r.value)
  {
    if IsAbsolute(p) then Ok(p)
    else match cwd
      case Err(e) => Err(e)
      case Ok(c) => Ok(JoinPath(c, p))
  }

  /** Applying it again changes nothing, whatever the working directory. */
  lemma AbsPathIdempotent(p: string, cwd: Result<string, string>, cwd2: Result<string, string>)
    requires cwd.Ok? && IsAbsolute(cwd.value) && AbsPath(p, cwd).Ok?
    ensures AbsPath(AbsPath(p, cwd).value, cwd2) == AbsPath(p, cwd)
  {
  }
}
