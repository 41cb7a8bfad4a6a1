/** Optional values, the ways a command can fail, and results that carry either. */
module Base {

  datatype Option<T> = None | Some(value: T) {
    /** The value, or `default` when there is none (PHP's `isset($x) ? $x : default`). */
    function GetOr(default: T): T {
      if Some? then value else default
    }
  }

  /** The errors a command raises; each one ends the run. */
  datatype Failure =
    | InvalidElement            // --element outside its allowed values
    | InvalidChanges            // --changes outside commit, ignore, skip
    | InvalidEnv                // --env names no environment of any fetched site
    | InvalidFramework          // a --framework token outside the known frameworks
    | EnvNotFound(siteEnv: string)  // a site has no environment with the requested id

  datatype Result<T> = Ok(value: T) | Err(failure: Failure)
}
