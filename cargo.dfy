/** The build script's view of Cargo: the environment it reads and the
    `cargo:` lines it prints on standard output. */
module Cargo {
  import opened Wrappers

  /** A snapshot of the process environment. */
  type Env = map<string, string>

  /** `env::var(name)` / `env::var_os(name)`. */
  function Var(env: Env, name: string): (r: Option<string>)
    ensures r.Some? <==> name in env
    ensures r.Some? ==> r.value == env[name]
  {
    if name in env then Some(env[name]) else None
  }

  datatype LinkKind = Static | Dylib

  /** One `cargo:` line. The comment after each variant is the line it prints. */
  datatype Directive =
    | RerunIfEnvChanged(variable: string)    // cargo:rerun-if-env-changed=<variable>
    | RerunIfChanged(path: string)           // cargo:rerun-if-changed=<path>
    | LinkSearchNative(dir: string)          // cargo:rustc-link-search=native=<dir>
    | LinkLib(kind: Option<LinkKind>, name: string)
                                             // cargo:rustc-link-lib=[static=|dylib=]<name>
    | Warning(text: string)                  // cargo:warning=<text>
    | Metadata(key: string, value: string)   // cargo:<key>=<value>

  predicate IsLinkLib(d: Directive, name: string)
  {
    d.LinkLib? && d.name == name
  }
}
