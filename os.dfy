/** The process environment, which the model takes as a value instead of reading it. */
module Os {

  type Environment = map<string, string>

  /** os.Getenv: the value of `key`, or "" when it is unset. */
  function Getenv(env: Environment, key: string): string
  {
    if key in env then env[key] else ""
  }
}
