/**
 * The four parts of the diffusion pipeline, their printed names and where
 * their weights and configuration files live. The workspace directory, fixed
 * at compile time, is a parameter; a path is its list of components.
 */
module Engine {
  type Path = seq<string>

  datatype Engine = Tokenizer | Lmts | UnetScheduler | VaeDecoder

  /** Directory of the data files under the workspace. */
  const AI_DATA_PATH := ".ai-data"

  /** The debug rendering. */
  function Debug(e: Engine): string
  {
    match e
    case Tokenizer => "tokenizer"
    case Lmts => "lmts"
    case UnetScheduler => "unet"
    case VaeDecoder => "vae"
  }

  /** The display rendering, used in file names. */
  function Display(e: Engine): string
  {
    match e
    case Tokenizer => "tokenizer"
    case Lmts => "lmts"
    case UnetScheduler => "unet"
    case VaeDecoder => "vae"
  }

  /** Both renderings agree, and distinct engines have distinct names. */
  lemma NamesAgreeAndDiffer(a: Engine, b: Engine)
    ensures Debug(a) == Display(a)
    ensures a != b ==> Display(a) != Display(b)
  {
  }

  function Data(workspace: Path): Path
  {
    workspace + [AI_DATA_PATH]
  }

  function Weights(workspace: Path, e: Engine): (p: Path)
    ensures p == workspace + [".ai-data", "stable_diffusion_2_1", Display(e) + ".safetensors"]
  {
    Data(workspace) + ["stable_diffusion_2_1", Display(e) + ".safetensors"]
  }

  function Vocab(workspace: Path): (p: Path)
    ensures p == workspace + [".ai-data", "stable_diffusion_2_1", "vocab.txt"]
  {
    Data(workspace) + ["stable_diffusion_2_1", "vocab.txt"]
  }

  function Config(workspace: Path, e: Engine): (p: Path)
    ensures p == workspace + ["configuration", "diffusion", Display(e) + ".ron"]
  {
    workspace + ["configuration", "diffusion", Display(e) + ".ron"]
  }

  lemma SameSuffixCancels(x: string, y: string, suffix: string)
    ensures x + suffix == y + suffix ==> x == y
  {
    if x + suffix == y + suffix {
      assert x == (x + suffix)[..|x|];
      assert y == (y + suffix)[..|y|];
    }
  }

  /** Each engine has its own weights file and its own configuration file, and neither is the vocabulary. */
  lemma PathsDistinct(workspace: Path, a: Engine, b: Engine)
    ensures a != b ==> Weights(workspace, a) != Weights(workspace, b) && Config(workspace, a) != Config(workspace, b)
    ensures Weights(workspace, a) != Vocab(workspace)
  {
    var n := |workspace|;
    if a != b {
      SameSuffixCancels(Display(a), Display(b), ".safetensors");
      SameSuffixCancels(Display(a), Display(b), ".ron");
      assert Weights(workspace, a)[n + 2] != Weights(workspace, b)[n + 2];
      assert Config(workspace, a)[n + 2] != Config(workspace, b)[n + 2];
    }
    assert Weights(workspace, a)[n + 2] != Vocab(workspace)[n + 2] by {
      var w := Display(a) + ".safetensors";
      assert w[|w| - 1] == 's';
    }
  }
}
