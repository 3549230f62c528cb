/** The collaborators the orchestration consumes, reduced to what it can
    observe of them: which loss class a term was made from, its display
    name, the image shape and target it was given, its enabled flag; the
    image's shape, preferred loss and the images it was asked to encode;
    and the caller-owned list of loss terms. */
module LossAug {
  import opened Wrappers

  /** A PIL image, known only by identity. */
  datatype PilImage = PilImage(id: nat)

  /** `img.image_shape`. */
  datatype Shape = Shape(width: nat, height: nat)

  /** A loss class: the image type's preferred loss, a `LOSS_DICT` entry,
      `OpticalFlowLoss` or `TargetFlowLoss`. */
  datatype LossClass = LossClass(className: string)

  const OpticalFlowLoss := LossClass("OpticalFlowLoss")
  const TargetFlowLoss := LossClass("TargetFlowLoss")

  /** A loss term. `TargetImageLoss(cls, name, shape, target, true)` is what
      `cls.TargetImage(name, shape, target)` constructs and `TVLoss(w, true)`
      is `TVLoss(weight=w)`: every freshly built loss is enabled.
      `term.set_enabled(e)` is the update `term.(enabled := e)`. */
  datatype LossTerm =
    | TargetImageLoss(cls: LossClass, name: string, shape: Shape, target: Option<PilImage>, enabled: bool)
    | TVLoss(weight: real, enabled: bool)

  /** The working image representation (`PixelImage` and its kin). Its
      tensors are not modelled; `encodings` records, in call order, every
      PIL image it was asked to encode. */
  class Image {
    const shape: Shape
    const preferredLoss: LossClass   // type(img).get_preferred_loss()
    var encodings: seq<PilImage>

    constructor (shape: Shape, preferredLoss: LossClass)
      ensures this.shape == shape && this.preferredLoss == preferredLoss
      ensures encodings == []
    {
      this.shape := shape;
      this.preferredLoss := preferredLoss;
      encodings := [];
    }

    /** `img.encode_image(pil)`. */
    method EncodeImage(pil: PilImage)
      modifies this
      ensures encodings == old(encodings) + [pil]
    {
      encodings := encodings + [pil];
    }
  }

  /** The caller-owned `loss_augs` list: it only ever grows at its end. */
  class LossAugList {
    var terms: seq<LossTerm>

    constructor (initial: seq<LossTerm>)
      ensures terms == initial
    {
      terms := initial;
    }

    /** `loss_augs.extend(ts)`. */
    method Extend(ts: seq<LossTerm>)
      modifies this
      ensures terms == old(terms) + ts
    {
      terms := terms + ts;
    }

    /** `loss_augs.append(t)`. */
    method Append(t: LossTerm)
      modifies this
      ensures terms == old(terms) + [t]
    {
      terms := terms + [t];
    }
  }
}
