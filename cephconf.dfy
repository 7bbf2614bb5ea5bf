/** The four files that bootstrap a CephFS client: the records they are
    rendered from, the text of each template, their file names under the
    fixed configuration root, and the three path accessors. */
module CephConf {
  import opened Lines

  datatype Option<T> = None | Some(value: T)

  /** Data of the cluster configuration template. */
  datatype ConfigData = ConfigData(monitors: string)

  /** Data of the restricted keyring template; an empty pool or namespace
      means "not given". */
  datatype KeyringData = KeyringData(
    userId: string, key: string, rootPath: string, pool: string, namespace: string)

  /** Data of the keyring template with unrestricted capabilities. */
  datatype FullCapsKeyringData = FullCapsKeyringData(userId: string, key: string)

  /** Data of the secret template. */
  datatype SecretData = SecretData(userId: string, key: string)

  // ---------------------------------------------------------------------
  // Templates
  // ---------------------------------------------------------------------

  /** The lines of the cluster configuration template. */
  function ConfigLines(d: ConfigData): seq<string>
  {
    ["[global]", "mon_host = " + d.monitors] + ConfigFixedLines
  }

  /** The template lines after the monitor line: the same in every
      configuration. */
  const ConfigFixedLines: seq<string> :=
    ["auth_cluster_required = cephx",
     "auth_service_required = cephx",
     "auth_client_required = cephx",
     "",
     "# Workaround for " + "http://tracker.ceph.com" + "/issues/23446",
     "fuse_set_user_groups = false"]

  /** The configuration text, every template line ending in a newline: the
      fixed head, the monitor list verbatim and the fixed tail, so no other
      part of it depends on the record. */
  function RenderConfig(d: ConfigData): (r: string)
    ensures r == ConfigHead + d.monitors + ConfigTail
  {
    var ls := ConfigLines(d);
    assert ls[1..][1..] == ConfigFixedLines;
    assert TextOf(ls) == "[global]" + "\n" + ("mon_host = " + d.monitors + "\n" + TextOf(ConfigFixedLines));
    TextOf(ls)
  }

  /** What follows the monitor list in every rendered configuration. */
  const ConfigTail: string := "\n" + TextOf(ConfigFixedLines)

  /** What precedes the monitor list in every rendered configuration. */
  const ConfigHead: string := "[global]\nmon_host = "

  /** Reads the monitor list back out of a configuration text: whatever lies
      between the fixed head and the fixed tail. */
  function MonitorsOf(text: string): (m: Option<string>)
    ensures m.Some? ==> text == ConfigHead + m.value + ConfigTail
  {
    if |text| >= |ConfigHead| + |ConfigTail|
       && text[..|ConfigHead|] == ConfigHead
       && text[|text| - |ConfigTail|..] == ConfigTail
    then
      var m := text[|ConfigHead|..|text| - |ConfigTail|];
      assert text == text[..|ConfigHead|] + m + text[|text| - |ConfigTail|..];
      Some(m)
    else None
  }

  /** The value of the osd capability: "allow rw", then " pool=<pool>" when a
      pool is given, then " namespace=<namespace>" when a namespace is given. */
  function OsdCaps(pool: string, namespace: string): (v: string)
    ensures |v| == 8 + (if pool == "" then 0 else 6 + |pool|)
                     + (if namespace == "" then 0 else 11 + |namespace|)
    ensures v[..8] == "allow rw"
    ensures pool != "" ==> v[8..14 + |pool|] == " pool=" + pool
    ensures namespace != "" ==> v[|v| - 11 - |namespace|..] == " namespace=" + namespace
  {
    "allow rw"
    + (if pool != "" then " pool=" + pool else "")
    + (if namespace != "" then " namespace=" + namespace else "")
  }

  /** The osd capability does not tell its clauses apart: a pool whose name
      carries " namespace=<n>" grants what that pool with namespace n grants. */
  lemma OsdCapsClausesOverlap(pool: string, namespace: string)
    requires pool != "" && namespace != ""
    ensures OsdCaps(pool + " namespace=" + namespace, "") == OsdCaps(pool, namespace)
  {
    assert " pool=" + (pool + " namespace=" + namespace) == " pool=" + pool + (" namespace=" + namespace);
  }

  /** The lines of the restricted keyring template. */
  function KeyringLines(d: KeyringData): seq<string>
  {
    ["[client." + d.userId + "]",
     "key = " + d.key,
     "caps mds = \"allow rw path=" + d.rootPath + "\"",
     "caps mon = \"allow r\"",
     "caps osd = \"" + OsdCaps(d.pool, d.namespace) + "\""]
  }

  /** The restricted keyring text; `KeyringLayout` states its lines. */
  function RenderKeyring(d: KeyringData): string
  {
    TextOf(KeyringLines(d))
  }

  /** The lines of the full-capability keyring template. */
  function FullCapsKeyringLines(d: FullCapsKeyringData): seq<string>
  {
    ["[client." + d.userId + "]",
     "key = " + d.key,
     "caps mds = \"allow\"",
     "caps mon = \"allow *\"",
     "caps osd = \"allow *\""]
  }

  /** The full-capability keyring text; `FullCapsKeyringLayout` states its
      lines. */
  function RenderFullCapsKeyring(d: FullCapsKeyringData): string
  {
    TextOf(FullCapsKeyringLines(d))
  }

  /** The secret template is the key alone: a key without a newline gives a
      single line with no line terminator, unlike the other templates. */
  function RenderSecret(d: SecretData): (r: string)
    ensures '\n' !in d.key ==> SplitLines(r) == [d.key]
  {
    d.key
  }

  // ---------------------------------------------------------------------
  // Properties of the rendered text
  // ---------------------------------------------------------------------

  /** The monitor list can be read back from the configuration, so two
      records render the same configuration only if they are equal. */
  lemma MonitorsRoundTrip(d: ConfigData)
    ensures MonitorsOf(RenderConfig(d)) == Some(d.monitors)
  {
    var t := RenderConfig(d);
    assert t[..|ConfigHead|] == ConfigHead;
    assert t[|t| - |ConfigTail|..] == ConfigTail;
    assert t[|ConfigHead|..|t| - |ConfigTail|] == d.monitors;
  }

  /** With a monitor list that holds no newline, the configuration reads as
      eight lines of which only the second depends on the record. */
  lemma ConfigLayout(d: ConfigData)
    requires '\n' !in d.monitors
    ensures SplitLines(RenderConfig(d)) ==
      ["[global]", "mon_host = " + d.monitors] + ConfigFixedLines + [""]
  {
    var ls := ConfigLines(d);
    NoNewlineConcat("mon_host = ", d.monitors, "");
    assert ls[1] == "mon_host = " + d.monitors + "";
    FixedLinesHaveNoNewline();
    assert forall i :: 2 <= i < |ls| ==> ls[i] == ConfigFixedLines[i - 2];
    SplitTextOf(ls);
  }

  /** With newline-free fields, the restricted keyring reads as five lines:
      the section header, the key, the mds, mon and osd capabilities. */
  lemma KeyringLayout(d: KeyringData)
    requires '\n' !in d.userId && '\n' !in d.key && '\n' !in d.rootPath
    requires '\n' !in d.pool && '\n' !in d.namespace
    ensures SplitLines(RenderKeyring(d)) ==
      ["[client." + d.userId + "]",
       "key = " + d.key,
       "caps mds = \"allow rw path=" + d.rootPath + "\"",
       "caps mon = \"allow r\"",
       "caps osd = \"" + OsdCaps(d.pool, d.namespace) + "\"",
       ""]
  {
    var ls := KeyringLines(d);
    NoNewlineConcat("[client.", d.userId, "]");
    NoNewlineConcat("key = ", d.key, "");
    assert ls[1] == "key = " + d.key + "";
    NoNewlineConcat("caps mds = \"allow rw path=", d.rootPath, "\"");
    NoNewlineConcat("", d.pool, " namespace=" + d.namespace);
    var v := OsdCaps(d.pool, d.namespace);
    NoNewlineConcat(" pool=", d.pool, "");
    assert " pool=" + d.pool + "" == " pool=" + d.pool;
    NoNewlineConcat(" namespace=", d.namespace, "");
    assert " namespace=" + d.namespace + "" == " namespace=" + d.namespace;
    var p := if d.pool != "" then " pool=" + d.pool else "";
    var n := if d.namespace != "" then " namespace=" + d.namespace else "";
    NoNewlineConcat("allow rw", p, n);
    NoNewlineConcat("caps osd = \"", v, "\"");
    SplitTextOf(ls);
  }

  /** With newline-free fields, the full-capability keyring reads as five
      lines granting every capability without any scope. */
  lemma FullCapsKeyringLayout(d: FullCapsKeyringData)
    requires '\n' !in d.userId && '\n' !in d.key
    ensures SplitLines(RenderFullCapsKeyring(d)) ==
      ["[client." + d.userId + "]",
       "key = " + d.key,
       "caps mds = \"allow\"",
       "caps mon = \"allow *\"",
       "caps osd = \"allow *\"",
       ""]
  {
    var ls := FullCapsKeyringLines(d);
    NoNewlineConcat("[client.", d.userId, "]");
    NoNewlineConcat("key = ", d.key, "");
    assert ls[1] == "key = " + d.key + "";
    SplitTextOf(ls);
  }

  lemma FixedLinesHaveNoNewline()
    ensures forall i :: 0 <= i < |ConfigFixedLines| ==> '\n' !in ConfigFixedLines[i]
  {
    AuthLinesHaveNoNewline();
    WorkaroundLinesHaveNoNewline();
    assert ConfigFixedLines == ConfigFixedLines[..4] + ConfigFixedLines[4..];
  }

  lemma AuthLinesHaveNoNewline()
    ensures forall i :: 0 <= i < 4 ==> '\n' !in ConfigFixedLines[i]
  {
    var ls := ConfigFixedLines;
    assert '\n' !in ls[0];
    assert '\n' !in ls[1];
    assert '\n' !in ls[2];
    assert '\n' !in ls[3];
  }

  lemma WorkaroundLinesHaveNoNewline()
    ensures forall i :: 4 <= i < 6 ==> '\n' !in ConfigFixedLines[i]
  {
    var ls := ConfigFixedLines;
    NoNewlineConcat("# Workaround for ", "http://tracker.ceph.com", "/issues/23446");
    assert '\n' !in ls[5];
  }

  lemma NoNewlineConcat(a: string, b: string, c: string)
    requires '\n' !in a && '\n' !in b && '\n' !in c
    ensures '\n' !in a + b + c
  {
  }

  /** The renderings given as examples for the templates. */
  lemma TemplateExamples()
    ensures OsdCaps("", "") == "allow rw"
    ensures RenderSecret(SecretData("admin", "AQA==")) == "AQA=="
  {
  }

  // ---------------------------------------------------------------------
  // File names and paths
  // ---------------------------------------------------------------------

  const ConfigRoot: string := "/etc/ceph"
  const ConfigRootParent: string := "/etc"
  const ConfigFileName: string := "ceph.conf"

  /** A single path element that the lexical cleaning done by a path join
      leaves as it is. */
  predicate IsPlainName(name: string)
  {
    name != "" && name != "." && name != ".." && '/' !in name
  }

  /** The keyring file name: both keyring kinds share it. */
  function KeyringFileName(userId: string): (name: string)
    ensures '/' !in userId <==> IsPlainName(name)
  {
    "ceph.client." + userId + ".keyring"
  }

  function SecretFileName(userId: string): (name: string)
    ensures '/' !in userId <==> IsPlainName(name)
  {
    "ceph.client." + userId + ".secret"
  }

  /** Joins a plain file name to the configuration root; splitting the
      result at its final slash gives the root and the name back. */
  function JoinRoot(name: string): (p: string)
    requires IsPlainName(name)
    ensures BaseName(p) == name && DirPart(p) == ConfigRoot + "/"
  {
    BaseNameAfterSlash(ConfigRoot, name);
    ConfigRoot + "/" + name
  }

  /** The last element of a slash-separated path: what follows its final
      slash, or the whole path when it has none. */
  function BaseName(p: string): (b: string)
    ensures |b| <= |p| && b == p[|p| - |b|..]
    ensures '/' !in b
    ensures |b| < |p| ==> p[|p| - |b| - 1] == '/'
  {
    if p == [] || p[|p| - 1] == '/' then []
    else BaseName(p[..|p| - 1]) + [p[|p| - 1]]
  }

  /** Everything up to and including the final slash. */
  function DirPart(p: string): string
  {
    p[..|p| - |BaseName(p)|]
  }

  /** The last element of `dir + "/" + name` is `name` when `name` holds no
      slash. */
  lemma {:induction false} BaseNameAfterSlash(dir: string, name: string)
    requires '/' !in name
    ensures BaseName(dir + "/" + name) == name
    decreases |name|
  {
    var p := dir + "/" + name;
    if name != [] {
      var init := name[..|name| - 1];
      assert p[..|p| - 1] == dir + "/" + init;
      assert '/' !in init by {
        forall i | 0 <= i < |init| ensures init[i] != '/' { assert init[i] == name[i]; }
      }
      BaseNameAfterSlash(dir, init);
      assert init + [name[|name| - 1]] == name;
    }
  }

  function GetCephSecretPath(userId: string): (p: string)
    requires '/' !in userId
    ensures DirPart(p) == ConfigRoot + "/" && BaseName(p) == SecretFileName(userId)
  {
    JoinRoot(SecretFileName(userId))
  }

  function GetCephKeyringPath(userId: string): (p: string)
    requires '/' !in userId
    ensures DirPart(p) == ConfigRoot + "/" && BaseName(p) == KeyringFileName(userId)
  {
    JoinRoot(KeyringFileName(userId))
  }

  function GetCephConfPath(): (p: string)
    ensures DirPart(p) == ConfigRoot + "/" && BaseName(p) == ConfigFileName
  {
    JoinRoot(ConfigFileName)
  }

  /** Different users have different keyring and secret paths. */
  lemma PathsInjective(u: string, v: string)
    requires '/' !in u && '/' !in v
    ensures GetCephKeyringPath(u) == GetCephKeyringPath(v) <==> u == v
    ensures GetCephSecretPath(u) == GetCephSecretPath(v) <==> u == v
  {
    if GetCephKeyringPath(u) == GetCephKeyringPath(v) {
      var a := KeyringFileName(u);
      assert a == KeyringFileName(v);
      assert |u| == |v|;
      assert u == a[12..12 + |u|] == v;
    }
    if GetCephSecretPath(u) == GetCephSecretPath(v) {
      var a := SecretFileName(u);
      assert a == SecretFileName(v);
      assert |u| == |v|;
      assert u == a[12..12 + |u|] == v;
    }
  }

  /** The configuration, any keyring and any secret never share a path. */
  lemma PathsDistinct(u: string, v: string)
    requires '/' !in u && '/' !in v
    ensures GetCephKeyringPath(u) != GetCephSecretPath(v)
    ensures GetCephConfPath() != GetCephKeyringPath(u)
    ensures GetCephConfPath() != GetCephSecretPath(u)
  {
    var k, s, c := KeyringFileName(u), SecretFileName(v), ConfigFileName;
    assert k[|k| - 1] == 'g' && s[|s| - 1] == 't';
    assert c[6] == 'o' && k[6] == 'l' && s[6] == 'l';
  }
}
