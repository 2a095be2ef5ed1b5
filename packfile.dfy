/**
 * The archive name `npm pack` produces for a package, derived from the
 * package descriptor the way the plugin derives it.
 */
module PackFile {
  import Text

  /** The two fields of `package.json` that name the archive. */
  datatype PackageJson = PackageJson(name: string, version: string)

  const Extension := ".tgz"

  /** The package name with its first `@` dropped and then its first `/` turned into `-`. */
  function HyphenName(name: string): (r: string)
  {
    Text.ReplaceFirst(Text.ReplaceFirst(name, '@', ""), '/', "-")
  }

  /** `<hyphen-name>-<version>.tgz`. */
  function PackFileName(pj: PackageJson): string {
    HyphenName(pj.name) + "-" + pj.version + Extension
  }

  /**
   * Every archive name ends with `-<version>.tgz`, and what comes before is
   * the package name less one character exactly when it holds an `@`.
   */
  lemma PackFileNameShape(pj: PackageJson)
    ensures var r, h := PackFileName(pj), HyphenName(pj.name);
      && |r| == |pj.name| - (if '@' in pj.name then 1 else 0) + |pj.version| + 5
      && r[..|h|] == h
      && r[|h|..] == "-" + pj.version + ".tgz"
  {
    HyphenNameLength(pj.name);
    var h := HyphenName(pj.name);
    assert PackFileName(pj) == h + ("-" + pj.version + Extension);
  }

  /** A scoped name `@scope/pkg` becomes `scope-pkg`. */
  lemma ScopedHyphenName(scope: string, pkg: string)
    requires '/' !in scope
    ensures HyphenName("@" + scope + "/" + pkg) == scope + "-" + pkg
  {
    Text.ReplaceFirstSplit([], '@', scope + "/" + pkg, "");
    assert [] + ['@'] + (scope + "/" + pkg) == "@" + scope + "/" + pkg;
    assert [] + "" + (scope + "/" + pkg) == scope + ['/'] + pkg;
    Text.ReplaceFirstSplit(scope, '/', pkg, "-");
  }

  /** A name with neither `@` nor `/` is kept as it is. */
  lemma UnscopedHyphenName(name: string)
    requires '@' !in name && '/' !in name
    ensures HyphenName(name) == name
  {
    Text.ReplaceFirstLength(name, '@', "");
    Text.ReplaceFirstLength(name, '/', "-");
  }

  /**
   * The name shrinks by exactly one character when it holds an `@`, and keeps
   * its length otherwise: the `/` is replaced, not removed.
   */
  lemma HyphenNameLength(name: string)
    ensures |HyphenName(name)| == if '@' in name then |name| - 1 else |name|
    ensures |HyphenName(name)| < |name| <==> '@' in name
  {
    Text.ReplaceFirstMultiset(name, '@', "");
    var dropped := Text.ReplaceFirst(name, '@', "");
    assert multiset(dropped)['/'] == multiset(name)['/'];
    assert '/' in dropped <==> '/' in name;
    Text.ReplaceFirstLength(name, '@', "");
    Text.ReplaceFirstLength(dropped, '/', "-");
  }

  /**
   * Only the first `@` and the first `/` are rewritten: one `@` and one `/`
   * leave the name, a `-` comes in for the `/`, and every other character,
   * later `@`s and `/`s included, survives as often as it occurred.
   */
  lemma HyphenNameCount(name: string, x: char)
    ensures multiset(HyphenName(name))[x]
         == multiset(name)[x]
            - (if x == '@' && '@' in name then 1 else 0)
            - (if x == '/' && '/' in name then 1 else 0)
            + (if x == '-' && '/' in name then 1 else 0)
  {
    var dropped := Text.ReplaceFirst(name, '@', "");
    Text.ReplaceFirstCount(name, '@', "", x);
    Text.ReplaceFirstCount(name, '@', "", '/');
    assert '/' in dropped <==> '/' in name;
    Text.ReplaceFirstCount(dropped, '/', "-", x);
  }

  /**
   * The first `@` is dropped wherever it stands, not only in front: the
   * code does not check that it leads the name.
   */
  lemma InnerAtIsDropped(before: string, after: string)
    requires '@' !in before && '/' !in before && '/' !in after
    ensures HyphenName(before + "@" + after) == before + after
  {
    Text.ReplaceFirstSplit(before, '@', after, "");
    assert before + "@" + after == before + ['@'] + after;
    assert before + "" + after == before + after;
    assert '/' !in before + after;
    Text.ReplaceFirstLength(before + after, '/', "-");
  }

  /** A scoped package `@scope/pkg` at version `v` packs to `scope-pkg-v.tgz`. */
  lemma ScopedPackFileName(scope: string, pkg: string, version: string)
    requires '/' !in scope
    ensures PackFileName(PackageJson("@" + scope + "/" + pkg, version))
         == scope + "-" + pkg + "-" + version + ".tgz"
  {
    ScopedHyphenName(scope, pkg);
  }

  /** An unscoped package `name` at version `v` packs to `name-v.tgz`. */
  lemma UnscopedPackFileName(name: string, version: string)
    requires '@' !in name && '/' !in name
    ensures PackFileName(PackageJson(name, version)) == name + "-" + version + ".tgz"
  {
    UnscopedHyphenName(name);
  }
}
