# PixelPolish denoiser core, modelled in Dafny

PixelPolish enhances uploaded images. Its Python backend denoises with a DnCNN
network and upscales with Real-ESRGAN. Most of the backend is I/O and calls into
torch, PIL and FastAPI. This project models the two parts of it that are plain
logic:

- `dncnn_model.dfy` (module `DnCNNModel`) models `backend/dncnn_model.py`.
  - The layer list that `DnCNN.__init__` builds. Each layer is a `Layer` value:
    `Conv(in, out, kernel, padding, bias)`, `BatchNorm(features)` or `ReLU(inplace)`.
    The method `BuildLayers` grows the list with the same appending loop as the
    source. `DnCNNLayers` is the function it is proved against.
  - `load_dncnn_model` up to the call to `load_state_dict`. A loaded checkpoint is an
    `Obj<T>`: either a dict, given as its `items()` in iteration order, or an opaque
    other object. `Unwrap` takes `checkpoint["model"]` when that key is present.
    `NormaliseStateDict` then rebuilds the state dict key by key, stripping one
    leading `"module."`. `Normalised` is the function it is proved against.
- `div2k_denoising.dfy` (module `Div2kDenoising`) models `backend/datasets/div2k_denoising.py`.
  - The constructor's extension filter over a directory listing. The listing is an
    input sequence, standing for `os.listdir`.
  - The fields the constructor stores, `__len__`, and the path that `__getitem__`
    opens, including Python's negative indexing and its `IndexError`.

## Model

| member | source | states |
|---|---|---|
| `DnCNNModel.DnCNNLayers` | backend/dncnn_model.py:10-17 | The reference stack has `3 + 3*max(0, n-2)` layers. It opens with Conv(channels→64, 3×3, padding 1, no bias) followed by an in-place ReLU, and closes with Conv(64→channels) of the same form. |
| `DnCNNModel.BuildLayers` | backend/dncnn_model.py:5-17 | The constructor's appending loop yields exactly the stack `DnCNNLayers(channels, numOfLayers)`. |
| `DnCNNModel.DnCNN.constructor` | backend/dncnn_model.py:5-18 | `self.dncnn` holds that stack. The defaults are 3 channels and 20 layers. |
| `DnCNNModel.MiddleBlocks` | backend/dncnn_model.py:13-16 | k loop iterations give 3k layers. Layer i is element `i % 3` of Conv(64→64), BatchNorm(64), ReLU. |
| `DnCNNModel.LayerStackShape` | backend/dncnn_model.py:5-17 | The stack has `3 + 3*max(0, n-2)` layers (`3n-3` when n ≥ 2). It starts with a 3×3, padding-1, bias-free Conv(channels→64) and an in-place ReLU. It ends with Conv(64→channels). Every middle position holds Conv(64→64), BatchNorm(64) or ReLU, in that order. |
| `DnCNNModel.DefaultStackLength` | backend/dncnn_model.py:5-17 | The default DnCNN (3 channels, 20 layers) has 57 layers. |
| `DnCNNModel.ConvChaining` | backend/dncnn_model.py:7-17 | The stack has `max(0, n-2) + 2` convolutions, all 3×3 with padding 1 and no bias. Each consumes the channels the previous one produces. The first takes `channels` and the last gives back `channels`. |
| `DnCNNModel.KeyIndex` | backend/dncnn_model.py:28-29 | Looking up a key that is present finds an entry under that key, and no earlier entry has it. |
| `DnCNNModel.Unwrap` | backend/dncnn_model.py:28-31 | For a dict with a `"model"` entry, the state dict is that entry's value. For a non-dict, or a dict without that key, it is the checkpoint itself. |
| `DnCNNModel.StripModule` | backend/dncnn_model.py:35-37 | A key starting with `"module."` becomes the rest of the key, 7 characters shorter. Any other key is kept verbatim. |
| `DnCNNModel.StripOnce` | backend/dncnn_model.py:35-37 | Only one prefix is removed: `"module.module.w"` becomes `"module.w"`. `"w"` and `"modules.w"` are unchanged. |
| `DnCNNModel.NormaliseStateDict` | backend/dncnn_model.py:33-38 | The key-by-key loop builds exactly `Normalised(stateDict)`. |
| `DnCNNModel.Normalised` | backend/dncnn_model.py:33-38 | Writing the entries in iteration order yields a dict whose key set is exactly the image of the input keys under the renaming. |
| `DnCNNModel.NormalisedLastWriteWins` | backend/dncnn_model.py:34-38 | Each value is carried over unchanged. Under each normalised key sits the value of the last input entry that normalises to it. |
| `DnCNNModel.NormalisedSize` | backend/dncnn_model.py:33-38 | The result never has more entries than the input. |
| `DnCNNModel.NormalisedNoCollision` | backend/dncnn_model.py:33-38 | When no two input keys normalise alike, no entry is lost. |
| `DnCNNModel.CollisionExample` | backend/dncnn_model.py:34-38 | `"w"` and `"module.w"` collide, and the entry iterated later wins, in either order. |
| `DnCNNModel.PrepareStateDict` | backend/dncnn_model.py:28-38 | The state dict handed on is the normalised unwrapped checkpoint. When the unwrapped object is not a dict, the result is an error, since `.items()` raises. |
| `DnCNNModel.LoadDnCNNModel` | backend/dncnn_model.py:24-38 | Loading builds a fresh default DnCNN (3 channels, 20 layers) and prepares the state dict as above. |
| `Div2kDenoising.Join` | backend/datasets/div2k_denoising.py:23 | With POSIX rules, `os.path.join(a, b)` ends with `b`. An absolute `b` replaces `a`. Otherwise the path is `a`, then exactly one `/` unless `a` is empty or already ends in `/`, then `b`. |
| `Div2kDenoising.IsImageName` | backend/datasets/div2k_denoising.py:11 | The suffix test `f.lower().endswith(('.png', '.jpg', '.jpeg'))`. A name that passes has at least four characters. |
| `Div2kDenoising.ImageNameCases` | backend/datasets/div2k_denoising.py:11 | The tuple test holds if and only if the lower-cased name ends in one of the three suffixes. |
| `Div2kDenoising.ImageNameCharwise` | backend/datasets/div2k_denoising.py:11 | Equivalently, the last 4 or 5 characters of the name spell `.png`, `.jpg` or `.jpeg` once upper-case letters are lowered. |
| `Div2kDenoising.FilterImages` | backend/datasets/div2k_denoising.py:11 | Every kept name passes the suffix test, and the kept list is no longer than the listing. |
| `Div2kDenoising.FilterKeepsOrder` | backend/datasets/div2k_denoising.py:11 | The kept list is a subsequence of the listing, so the relative order is preserved. |
| `Div2kDenoising.FilterCounts` | backend/datasets/div2k_denoising.py:11 | Each image name is kept exactly as often as it occurs in the listing, and no other name is kept. |
| `Div2kDenoising.KeptIff` | backend/datasets/div2k_denoising.py:11 | A name is kept if and only if it occurs in the listing and its lower-cased form ends in `.png`, `.jpg` or `.jpeg`. |
| `Div2kDenoising.KeptExamples` | backend/datasets/div2k_denoising.py:11 | `"IMG_01.JPG"`, `"0001.png"` and `"photo.Jpeg"` are kept. |
| `Div2kDenoising.DroppedExamples` | backend/datasets/div2k_denoising.py:11 | `"a.png.bak"`, `"b.gif"` and a bare `"png"` are dropped. |
| `Div2kDenoising.FilterExample` | backend/datasets/div2k_denoising.py:11 | The listing `b.gif, IMG_01.JPG, a.png.bak, 0001.png` keeps `IMG_01.JPG, 0001.png`, in that order. |
| `Div2kDenoising.SuffixOnly` | backend/datasets/div2k_denoising.py:11 | Only the last five characters of a name decide whether it is kept. |
| `Div2kDenoising.CaseInsensitive` | backend/datasets/div2k_denoising.py:11 | A name and its lower-cased form are kept or dropped alike. |
| `Div2kDenoising.NewDataset` | backend/datasets/div2k_denoising.py:9-13 | Every name a new dataset stores passed the filter. |
| `Div2kDenoising.ConstructorFields` | backend/datasets/div2k_denoising.py:9-13 | `root_dir`, `patch_size` and `noise_std_range` are stored unchanged. Their defaults are 128 and (5, 50). |
| `Div2kDenoising.Len` | backend/datasets/div2k_denoising.py:19-20 | `__len__` is exactly the bound on indices: `__getitem__` accepts `idx` if and only if `-len <= idx < len`. |
| `Div2kDenoising.LenCountsImages` | backend/datasets/div2k_denoising.py:19-20 | `__len__` of a new dataset is the number of listing positions that hold an image name. |
| `Div2kDenoising.ItemPath` | backend/datasets/div2k_denoising.py:22-23 | An index is accepted if and only if `-len <= idx < len`, and anything else is an `IndexError`. Index `idx >= 0` opens `root_dir` joined with `filenames[idx]`. A negative `idx` opens `root_dir` joined with `filenames[len + idx]`. |
| `Div2kDenoising.NegativeIndexWraps` | backend/datasets/div2k_denoising.py:22-23 | Index `idx - len` opens the same path as `idx`. |
| `Div2kDenoising.OnlyKeptNamesAreRead` | backend/datasets/div2k_denoising.py:9-23 | Every path the dataset opens is `root_dir` joined with a listing name that passed the filter. |
| `Div2kDenoising.EveryKeptNameIsRead` | backend/datasets/div2k_denoising.py:9-23 | Conversely, every image name of the listing is opened by some index `0 <= idx < len`. |

## Left out

- The request path (backend/server.js, backend/enhancer.py) has no upload-size or pixel-dimension validation, no option parser, no temporary-file store and no per-request state machine. So none of these is modelled.
- `DnCNN.forward` (`x - out`) is float tensor arithmetic and is not modelled.
- `torch.load`, `load_state_dict`, `.to(device)` and `.eval()` are foreign calls. The loaded checkpoint is an input, and the model stops at the state dict that would be handed to `load_state_dict`.
- torch's own checks on layer arguments are not modelled, such as the rejection of a negative channel count. Channel counts are plain integers.
- `DnCNNModel.NormaliseStateDict`: `new_state_dict` is a Dafny `map`, so its insertion order is not modelled. The input's iteration order is modelled, because it decides which entry wins a collision.
- State-dict keys are strings. A non-string key would make `startswith` raise, and that case is not modelled.
- `Div2kDenoising.IsImageName` lower-cases ASCII letters only, whereas `str.lower()` also maps other Unicode letters. No non-ASCII character lower-cases to `.`, `p`, `n`, `g`, `j` or `e`, so the keep decision is the same for ordinary file names.
- The `transforms.Compose` pipeline (`RandomCrop(patch_size)`, `ToTensor`) is not modelled. In `__getitem__`, the image decoding, random crop and Gaussian noise are randomness, floats and I/O, and only the path computation is modelled.
- `Div2kDenoising.Join`: only POSIX joining (`posixpath.join`) is modelled. On Windows, `os.path.join` is `ntpath.join`, which inserts `\\`, accepts `/` as a separator too, and keeps a drive letter when `b` is rooted. The program may run there, since backend/server.js starts a Windows virtual environment.
- `Div2kDenoising.ItemPath` takes integer indices only. Slices and tensor indices are not modelled.
- `noise_std_range` is modelled as a pair of integers, the type of its default. Float ranges are not modelled.
- backend/server.js is not part of this model: Express, multer, a child process and filesystem callbacks.
- backend/enhancer.py is not part of this model: a FastAPI endpoint with PIL and torch/Real-ESRGAN inference.
- backend/train_dncnn.py is not part of this model: a torch training loop with float losses and random splits.
- The frontend is not part of this model: React presentation and `fetch` calls.
