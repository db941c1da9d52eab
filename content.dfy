/**
 * The content resolver for the configuration file: a custom class, a plain
 * file source, a directory source (whose purge implies force) or a template,
 * chosen in that precedence; and the restart link from the file to the service.
 */
module Content {
  import opened Wrappers
  import opened Resolver

  /** Where the configuration comes from. */
  datatype ContentSource =
    | ByClass(name: string)
    | BySource(uri: string)
    | ByDir(uri: string, purge: bool)
    | ByTemplate(path: Option<string>)

  /**
   * What a template (or a custom class) may refer to: the host's fully
   * qualified domain name and the `options` hash, verbatim.
   */
  datatype TemplateContext = TemplateContext(fqdn: string, options: map<string, string>)

  /** Who renders the content: a template (the module's own when unnamed), or a custom class. */
  datatype Origin = FromTemplate(path: Option<string>) | FromClass(name: string)

  /** Rendered file content, kept opaque: its origin and the context it is rendered in. */
  datatype Rendering = Rendering(origin: Origin, context: TemplateContext)

  /** The rank of a content source in the precedence; higher wins. */
  function Rank(c: ContentSource): nat {
    match c
    case ByClass(_) => 3
    case BySource(_) => 2
    case ByDir(_, _) => 1
    case ByTemplate(_) => 0
  }

  /** The content sources the configuration asks for; the template is always one. */
  function Candidates(cfg: Config): set<ContentSource> {
    (if cfg.myClass.Some? then {ByClass(cfg.myClass.value)} else {})
    + (if cfg.source.Some? then {BySource(cfg.source.value)} else {})
    + (if cfg.sourceDir.Some? then {ByDir(cfg.sourceDir.value, cfg.sourceDirPurge)} else {})
    + {ByTemplate(cfg.template)}
  }

  /** The content source in force. */
  function ResolveContent(cfg: Config): ContentSource {
    if cfg.myClass.Some? then ByClass(cfg.myClass.value)
    else if cfg.source.Some? then BySource(cfg.source.value)
    else if cfg.sourceDir.Some? then ByDir(cfg.sourceDir.value, cfg.sourceDirPurge)
    else ByTemplate(cfg.template)
  }

  /**
   * The content source in force is the requested source of highest rank,
   * and the only one of that rank.
   */
  lemma ContentPrecedence(cfg: Config)
    ensures ResolveContent(cfg) in Candidates(cfg)
    ensures forall c :: c in Candidates(cfg) ==> Rank(c) <= Rank(ResolveContent(cfg))
    ensures forall c :: c in Candidates(cfg) && Rank(c) == Rank(ResolveContent(cfg)) ==> c == ResolveContent(cfg)
  {
  }
}
