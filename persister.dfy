/**
 * The tail of the generator's main: validate, write the kubeconfig, then,
 * when both a token and a token file were given, write the token to the
 * resolved token file path with mode 0600. The filesystem is a map from
 * path to content; a write either replaces one entry or fails, and a
 * failing write stops the run without undoing earlier writes.
 */
module Persister {
  import opened Validation
  import opened KubeconfigBuilder
  import opened TokenPath

  /** Owner read/write only: 0600 in octal. */
  const SecretMode: int := 0x180

  /** What a file holds: a serialized document or the raw token with its permission bits. */
  datatype Content = Document(config: Config) | Secret(data: string, mode: int)

  /** One file write the run intends to make. */
  datatype Write = Write(path: string, content: Content)

  /** How the run ends: rejected options with their message, a fatal write failure at a path, or success. */
  datatype Status = Rejected(error: OptionError, message: string) | WriteFailed(path: string) | Done

  /** The document built from the options. */
  function BuildConfig(o: Options): Config
  {
    CreateKubeconfig(o.server, o.cluster, o.namespace, o.token, o.tokenFile)
  }

  /** A token file is provisioned only when both the token and the token file are given. */
  predicate WritesSecret(o: Options)
  {
    o.tokenFile != "" && o.token != ""
  }

  /** The writes made after validation passes, in order. */
  function Plan(o: Options): seq<Write>
  {
    [Write(o.kubeconfig, Document(BuildConfig(o)))]
    + if WritesSecret(o) then [Write(ResolveTokenPath(o.tokenFile, o.kubeconfig), Secret(o.token, SecretMode))] else []
  }

  /** The paths of some writes, in order. */
  function Paths(ws: seq<Write>): (ps: seq<string>)
    ensures |ps| == |ws|
    ensures forall i :: 0 <= i < |ws| ==> ps[i] == ws[i].path
  {
    if ws == [] then [] else [ws[0].path] + Paths(ws[1..])
  }

  /** The filesystem after the writes `ws` are made one after another. */
  function Apply(files: map<string, Content>, ws: seq<Write>): map<string, Content>
    decreases |ws|
  {
    if ws == [] then files else Apply(files[ws[0].path := ws[0].content], ws[1..])
  }

  /** How many of the writes succeed before the first one to an unwritable path. */
  function Succeeding(ws: seq<Write>, unwritable: set<string>): (n: nat)
    ensures n <= |ws|
    ensures forall i :: 0 <= i < n ==> ws[i].path !in unwritable
    ensures n < |ws| ==> ws[n].path in unwritable
  {
    if ws == [] || ws[0].path in unwritable then 0
    else 1 + Succeeding(ws[1..], unwritable)
  }

  /** A path none of the writes touches keeps its content, or stays absent. */
  lemma {:induction false} ApplyUntouched(files: map<string, Content>, ws: seq<Write>, p: string)
    requires p !in Paths(ws)
    ensures p in Apply(files, ws) <==> p in files
    ensures p in files ==> Apply(files, ws)[p] == files[p]
    decreases |ws|
  {
    if ws != [] {
      assert Paths(ws)[0] == ws[0].path;
      assert Paths(ws[1..]) == Paths(ws)[1..];
      ApplyUntouched(files[ws[0].path := ws[0].content], ws[1..], p);
    }
  }

  /** A write that no later write to the same path follows decides that path's content. */
  lemma {:induction false} ApplyLastWins(files: map<string, Content>, ws: seq<Write>, i: nat)
    requires i < |ws|
    requires forall j :: i < j < |ws| ==> ws[j].path != ws[i].path
    ensures ws[i].path in Apply(files, ws)
    ensures Apply(files, ws)[ws[i].path] == ws[i].content
    decreases |ws|
  {
    var next := files[ws[0].path := ws[0].content];
    if i == 0 {
      forall k | 0 <= k < |ws[1..]| ensures Paths(ws[1..])[k] != ws[0].path {
        assert ws[1..][k] == ws[k + 1];
      }
      ApplyUntouched(next, ws[1..], ws[0].path);
    } else {
      ApplyLastWins(next, ws[1..], i - 1);
    }
  }

  /** The kubeconfig is written first, and a secret write, if any, comes second. */
  lemma PlanOrder(o: Options)
    ensures 1 <= |Plan(o)| <= 2
    ensures Plan(o)[0] == Write(o.kubeconfig, Document(BuildConfig(o)))
    ensures |Plan(o)| == 2 <==> WritesSecret(o)
  {
  }

  /**
   * The token file is written exactly when both the token and the token file
   * are given, and then it holds the token with owner-only permissions at
   * the resolved path.
   */
  lemma {:induction false} SecretWrittenIff(o: Options)
    ensures (exists w :: w in Plan(o) && w.content.Secret?) <==> o.token != "" && o.tokenFile != ""
    ensures forall w :: w in Plan(o) && w.content.Secret? ==>
      w == Write(ResolveTokenPath(o.tokenFile, o.kubeconfig), Secret(o.token, SecretMode))
  {
    if WritesSecret(o) {
      assert Plan(o)[1] in Plan(o);
    } else {
      assert Plan(o) == [Plan(o)[0]];
    }
  }

  /** Only the kubeconfig path and, when a secret is written, its path can change. */
  lemma {:induction false} NoOtherPathChanges(o: Options, files: map<string, Content>, n: nat, p: string)
    requires n <= |Plan(o)|
    requires p != o.kubeconfig
    requires WritesSecret(o) ==> p != ResolveTokenPath(o.tokenFile, o.kubeconfig)
    ensures p in Apply(files, Plan(o)[..n]) <==> p in files
    ensures p in files ==> Apply(files, Plan(o)[..n])[p] == files[p]
  {
    var ws := Plan(o)[..n];
    assert p !in Paths(ws) by {
      forall k | 0 <= k < |ws| ensures Paths(ws)[k] != p {
        assert ws[k] == Plan(o)[k];
      }
    }
    ApplyUntouched(files, ws, p);
  }

  /**
   * After a complete run the kubeconfig path still holds the document unless
   * the resolved token path is spelled exactly like the kubeconfig path, in
   * which case the token overwrote it. Paths are compared as strings.
   */
  lemma {:induction false} DocumentSurvivesIff(o: Options, files: map<string, Content>)
    ensures o.kubeconfig in Apply(files, Plan(o))
    ensures Apply(files, Plan(o))[o.kubeconfig] == Document(BuildConfig(o)) <==>
      !(WritesSecret(o) && ResolveTokenPath(o.tokenFile, o.kubeconfig) == o.kubeconfig)
  {
    var ws := Plan(o);
    if WritesSecret(o) && ws[1].path == o.kubeconfig {
      ApplyLastWins(files, ws, 1);
    } else {
      ApplyLastWins(files, ws, 0);
    }
  }

  /**
   * After a complete run that provisions a secret, the token file reference
   * stored in the document, resolved the way the tool resolves it (a bare
   * name beside the kubeconfig, any other value verbatim), holds the token.
   */
  lemma {:induction false} ReferenceHoldsToken(o: Options, files: map<string, Content>)
    requires WritesSecret(o)
    ensures var a := BuildConfig(o).authInfos[o.cluster];
      var p := ResolveTokenPath(a.tokenFile, o.kubeconfig);
      && a.tokenFile == o.tokenFile
      && p in Apply(files, Plan(o))
      && Apply(files, Plan(o))[p] == Secret(o.token, SecretMode)
  {
    CredentialPriority(o.server, o.cluster, o.namespace, o.token, o.tokenFile);
    ApplyLastWins(files, Plan(o), 1);
  }

  /**
   * Failures: an unwritable kubeconfig path stops the run before any write;
   * an unwritable token path leaves the document written, referring to a
   * token file that was not written.
   */
  lemma WriteFailureStops(o: Options, unwritable: set<string>)
    ensures Succeeding(Plan(o), unwritable) == 0 <==> o.kubeconfig in unwritable
    ensures WritesSecret(o) && o.kubeconfig !in unwritable
            && ResolveTokenPath(o.tokenFile, o.kubeconfig) in unwritable
            ==> Succeeding(Plan(o), unwritable) == 1
  {
  }

  /** Scenario: a literal token only; the single write is the document, which embeds the token. */
  lemma LiteralTokenScenario()
    ensures var o := Options("info", "/tmp/kc", "abc", "", "https://api.x", "prow", "builder", "ci");
      && Validate(o) == Pass
      && Plan(o) == [Write("/tmp/kc", Document(Config(
           map["prow" := Cluster("https://api.x")],
           map["prow" := Context("prow", "ci", "prow")],
           "prow",
           map["prow" := AuthInfo("abc", "")])))]
  {
    DefaultLevelAccepted();
  }

  /**
   * Scenario: a token and a bare token file name; the document refers to the
   * file, and the token goes beside the kubeconfig.
   */
  lemma {:induction false} TokenFileScenario()
    ensures var o := Options("info", "/tmp/kc", "abc", "sa-token", "https://api.x", "prow", "builder", "ci");
      && Validate(o) == Pass
      && Plan(o) == [
           Write("/tmp/kc", Document(Config(
             map["prow" := Cluster("https://api.x")],
             map["prow" := Context("prow", "ci", "prow")],
             "prow",
             map["prow" := AuthInfo("", "sa-token")]))),
           Write("/tmp/sa-token", Secret("abc", SecretMode))]
  {
    var o := Options("info", "/tmp/kc", "abc", "sa-token", "https://api.x", "prow", "builder", "ci");
    DefaultLevelAccepted();
    ResolveScenarioExample();
    assert WritesSecret(o);
    assert BuildConfig(o).authInfos["prow"] == AuthInfo("", "sa-token");
  }

  /** Scenario: an empty cluster name is rejected by the cluster check. */
  lemma MissingClusterScenario()
    ensures Validate(Options("info", "/tmp/kc", "abc", "", "https://api.x", "", "builder", "ci")) == Fail(MissingCluster)
  {
    DefaultLevelAccepted();
  }

  /** The filesystem the generator writes to. */
  class FileSystem {
    /** Every file present, by path. */
    var files: map<string, Content>
    /** The paths written so far, in order. */
    var written: seq<string>
    /** Paths on which a write fails (missing directory, no permission, ...). */
    const unwritable: set<string>

    constructor (initial: map<string, Content>, unwritable: set<string>)
      ensures files == initial && written == [] && this.unwritable == unwritable
    {
      files := initial;
      written := [];
      this.unwritable := unwritable;
    }

    /** Replaces the file at `path` (creating or truncating it), unless the path is unwritable. */
    method WriteFile(path: string, content: Content) returns (ok: bool)
      modifies this
      ensures ok <==> path !in unwritable
      ensures files == if ok then old(files)[path := content] else old(files)
      ensures written == if ok then old(written) + [path] else old(written)
    {
      ok := path !in unwritable;
      if ok {
        files := files[path := content];
        written := written + [path];
      }
    }

    /**
     * Validation, then the kubeconfig write, then the token file write when
     * both token and token file are set. Invalid options change nothing;
     * otherwise the writes of Plan(o) are made up to the first failing one.
     */
    method Run(o: Options) returns (status: Status)
      modifies this
      ensures Validate(o).Fail? ==>
        && status == Rejected(Validate(o).error, Message(Validate(o).error))
        && files == old(files) && written == old(written)
      ensures Validate(o).Pass? ==>
        var ws := Plan(o);
        var n := Succeeding(ws, unwritable);
        && files == Apply(old(files), ws[..n])
        && written == old(written) + Paths(ws[..n])
        && status == if n == |ws| then Done else WriteFailed(ws[n].path)
    {
      var v := Validate(o);
      if v.Fail? {
        return Rejected(v.error, Message(v.error));
      }
      ghost var ws := Plan(o);
      ghost var files0, written0 := files, written;
      var ok := WriteFile(o.kubeconfig, Document(BuildConfig(o)));
      if !ok {
        assert ws[..0] == [];
        return WriteFailed(o.kubeconfig);
      }
      assert ws[..1] == [ws[0]];
      assert Apply(files0, ws[..1]) == files0[o.kubeconfig := Document(BuildConfig(o))];
      if o.tokenFile != "" && o.token != "" {
        var path := ResolveTokenPath(o.tokenFile, o.kubeconfig);
        ok := WriteFile(path, Secret(o.token, SecretMode));
        if !ok {
          return WriteFailed(path);
        }
        assert ws[..2] == ws;
        assert ws[1..] == [ws[1]];
        assert Succeeding(ws[1..], unwritable) == 1;
        assert Apply(files0, ws) == Apply(files0[o.kubeconfig := Document(BuildConfig(o))], [ws[1]]);
        assert Paths(ws) == [o.kubeconfig, path];
      } else {
        assert ws == [ws[0]];
      }
      return Done;
    }
  }
}
