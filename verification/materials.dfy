/**
 * The sleeve's materials and the textures bound to them. Every texture ever
 * created is an entry of a table, in creation order, with a count of the
 * times it was disposed; each material's `map` is an index into that table.
 * The two overlay materials share one texture and one opacity.
 *
 * The object invariant says that nothing leaks and nothing is freed twice:
 * a texture bound to some material was never disposed, and every other
 * texture was disposed exactly once.
 */
module Materials {
  import Settings

  datatype Material = FrontPane | BackPane | OverlayFront | OverlayBack | VinylFace {
    /** The panes that show sleeve artwork, the only ones uploads replace. */
    predicate IsArtPane()
    {
      this == FrontPane || this == BackPane
    }
  }

  const AllMaterials: set<Material> := {FrontPane, BackPane, OverlayFront, OverlayBack, VinylFace}

  lemma EveryMaterial(m: Material)
    ensures m in AllMaterials
  {
    match m
    case FrontPane =>
    case BackPane =>
    case OverlayFront =>
    case OverlayBack =>
    case VinylFace =>
  }

  /** The overlay materials, in the order the source lists them. */
  const OverlayMaterials: seq<Material> := [OverlayFront, OverlayBack]

  const OverlayTexturePath := "overlay.jpg"
  const VinylTexturePath := "disc.png"

  /** A texture: the image it was created from and how often it was disposed. */
  datatype Texture = Texture(source: string, disposals: nat)

  class SleeveMaterials {
    var textures: seq<Texture>
    var maps: map<Material, nat>
    var opacity: map<Material, real>
    /** The shared overlay texture. */
    var overlayTexture: nat

    ghost predicate HasAllMaterials()
      reads this
    {
      maps.Keys == AllMaterials && opacity.Keys == AllMaterials
    }

    /** The textures some material shows. */
    ghost function Bound(): set<nat>
      reads this
      requires HasAllMaterials()
    {
      {maps[FrontPane], maps[BackPane], overlayTexture, maps[VinylFace]}
    }

    ghost predicate Valid()
      reads this
    {
      && HasAllMaterials()
      && (forall m :: m in maps ==> maps[m] < |textures|)
      && maps[OverlayFront] == overlayTexture && maps[OverlayBack] == overlayTexture
      && opacity[OverlayFront] == opacity[OverlayBack]
      // the front, back, overlay and vinyl textures are four different textures
      && maps[FrontPane] != maps[BackPane] && maps[FrontPane] != overlayTexture
      && maps[FrontPane] != maps[VinylFace] && maps[BackPane] != overlayTexture
      && maps[BackPane] != maps[VinylFace] && overlayTexture != maps[VinylFace]
      && (forall i :: 0 <= i < |textures| ==>
            textures[i].disposals == if i in Bound() then 0 else 1)
    }

    /** A material shows a live texture: no slot points at a disposed one. */
    lemma NoDanglingMap(m: Material)
      requires Valid()
      ensures m in maps && maps[m] < |textures| && textures[maps[m]].disposals == 0
    {
      EveryMaterial(m);
      assert maps[m] in Bound();
    }

    /** The materials as the scene builds them, the overlay shared by both overlay materials. */
    constructor (frontArt: Settings.Artwork, backArt: Settings.Artwork)
      ensures Valid()
      ensures textures == [
        Texture(Settings.ArtworkPath(frontArt), 0), Texture(Settings.ArtworkPath(backArt), 0),
        Texture(OverlayTexturePath, 0), Texture(VinylTexturePath, 0)]
      ensures maps == map[FrontPane := 0, BackPane := 1, OverlayFront := 2, OverlayBack := 2, VinylFace := 3]
      ensures overlayTexture == 2
      ensures opacity == map[FrontPane := 1.0, BackPane := 1.0, OverlayFront := 1.0, OverlayBack := 1.0, VinylFace := 1.0]
    {
      textures := [
        Texture(Settings.ArtworkPath(frontArt), 0), Texture(Settings.ArtworkPath(backArt), 0),
        Texture(OverlayTexturePath, 0), Texture(VinylTexturePath, 0)];
      maps := map[FrontPane := 0, BackPane := 1, OverlayFront := 2, OverlayBack := 2, VinylFace := 3];
      overlayTexture := 2;
      opacity := map[FrontPane := 1.0, BackPane := 1.0, OverlayFront := 1.0, OverlayBack := 1.0, VinylFace := 1.0];
    }

    /**
     * Creates a texture from an image; nothing shows it yet. A step inside
     * ReplaceMap and ReloadOverlayTexture: on its own it breaks Valid().
     */
    method CreateTexture(source: string) returns (t: nat)
      modifies this
      ensures t == |old(textures)|
      ensures textures == old(textures) + [Texture(source, 0)]
      ensures maps == old(maps) && opacity == old(opacity) && overlayTexture == old(overlayTexture)
    {
      t := |textures|;
      textures := textures + [Texture(source, 0)];
    }

    /**
     * Releases a texture's GPU resources. A step inside ReplaceMap and
     * ReloadOverlayTexture: on its own it breaks Valid().
     */
    method Dispose(t: nat)
      requires t < |textures|
      modifies this
      ensures textures == old(textures)[t := old(textures)[t].(disposals := old(textures)[t].disposals + 1)]
      ensures maps == old(maps) && opacity == old(opacity) && overlayTexture == old(overlayTexture)
    {
      textures := textures[t := textures[t].(disposals := textures[t].disposals + 1)];
    }

    /**
     * Disposes the texture an artwork pane shows, then binds a new texture
     * made from `source`.
     */
    method ReplaceMap(m: Material, source: string)
      requires Valid() && m.IsArtPane()
      modifies this
      ensures Valid()
      ensures textures == old(textures)[old(maps[m]) := Texture(old(textures[maps[m]]).source, 1)]
                          + [Texture(source, 0)]
      ensures maps == old(maps)[m := |old(textures)|]
      ensures opacity == old(opacity) && overlayTexture == old(overlayTexture)
    {
      ghost var before := textures;
      ghost var old_t := maps[m];
      NoDanglingMap(m);
      Dispose(maps[m]);
      var t := CreateTexture(source);
      maps := maps[m := t];
      assert Bound() == old(Bound()) - {old_t} + {t};
      forall i | 0 <= i < |textures|
        ensures textures[i].disposals == if i in Bound() then 0 else 1
      {
        if i < |before| && i != old_t {
          assert textures[i] == before[i];
          assert i in Bound() <==> i in old(Bound());
        }
      }
    }

    /** Re-creates both artwork textures from the chosen presets. */
    method ReloadArtwork(frontArt: Settings.Artwork, backArt: Settings.Artwork)
      requires Valid()
      modifies this
      ensures Valid()
      ensures |textures| == |old(textures)| + 2
      ensures textures[|old(textures)|] == Texture(Settings.ArtworkPath(frontArt), 0)
      ensures textures[|old(textures)| + 1] == Texture(Settings.ArtworkPath(backArt), 0)
      ensures forall i :: 0 <= i < |old(textures)| ==>
        textures[i] == if i == old(maps[FrontPane]) || i == old(maps[BackPane])
                       then Texture(old(textures[i]).source, 1) else old(textures[i])
      ensures maps == old(maps)[FrontPane := |old(textures)|][BackPane := |old(textures)| + 1]
      ensures opacity == old(opacity) && overlayTexture == old(overlayTexture)
    {
      ReplaceMap(FrontPane, Settings.ArtworkPath(frontArt));
      ReplaceMap(BackPane, Settings.ArtworkPath(backArt));
    }

    /**
     * The completion of an upload: the file was read as `dataUrl`; the pane's
     * old texture is disposed and one made from the upload is bound.
     */
    method ApplyCustomArtwork(m: Material, dataUrl: string)
      requires Valid() && m.IsArtPane()
      modifies this
      ensures Valid()
      ensures textures == old(textures)[old(maps[m]) := Texture(old(textures[maps[m]]).source, 1)]
                          + [Texture(dataUrl, 0)]
      ensures maps == old(maps)[m := |old(textures)|]
      ensures opacity == old(opacity) && overlayTexture == old(overlayTexture)
    {
      ReplaceMap(m, dataUrl);
    }

    /**
     * Disposes the shared overlay texture (once), creates a new one and
     * binds it to both overlay materials.
     */
    method ReloadOverlayTexture()
      requires Valid()
      modifies this
      ensures Valid()
      ensures overlayTexture == |old(textures)|
      ensures textures == old(textures)[old(overlayTexture) := Texture(old(textures[overlayTexture]).source, 1)]
                          + [Texture(OverlayTexturePath, 0)]
      ensures maps == old(maps)[OverlayFront := overlayTexture][OverlayBack := overlayTexture]
      ensures opacity == old(opacity)
    {
      ghost var before := textures;
      ghost var old_t := overlayTexture;
      NoDanglingMap(OverlayFront);
      Dispose(overlayTexture);
      overlayTexture := CreateTexture(OverlayTexturePath);
      ghost var maps0 := maps;
      ghost var textures1 := textures;
      for k := 0 to |OverlayMaterials|
        invariant maps.Keys == maps0.Keys
        invariant forall j :: 0 <= j < k ==> maps[OverlayMaterials[j]] == overlayTexture
        invariant forall m :: m in maps0 && m !in OverlayMaterials[..k] ==> maps[m] == maps0[m]
        invariant textures == textures1 && opacity == old(opacity) && overlayTexture == |before|
      {
        maps := maps[OverlayMaterials[k] := overlayTexture];
      }
      assert OverlayMaterials[0] == OverlayFront && OverlayMaterials[1] == OverlayBack;
      assert maps == maps0[OverlayFront := overlayTexture][OverlayBack := overlayTexture];
      assert Bound() == old(Bound()) - {old_t} + {overlayTexture};
      forall i | 0 <= i < |textures|
        ensures textures[i].disposals == if i in Bound() then 0 else 1
      {
        if i < |before| && i != old_t {
          assert textures[i] == before[i];
          assert i in Bound() <==> i in old(Bound());
        }
      }
    }

    /** Sets the opacity of both overlay materials to `value`. */
    method UpdateOverlayOpacity(value: real)
      requires Valid()
      modifies this
      ensures Valid()
      ensures opacity == old(opacity)[OverlayFront := value][OverlayBack := value]
      ensures textures == old(textures) && maps == old(maps) && overlayTexture == old(overlayTexture)
    {
      for k := 0 to |OverlayMaterials|
        invariant opacity.Keys == old(opacity).Keys
        invariant forall j :: 0 <= j < k ==> opacity[OverlayMaterials[j]] == value
        invariant forall m :: m in old(opacity) && m !in OverlayMaterials[..k] ==> opacity[m] == old(opacity)[m]
        invariant textures == old(textures) && maps == old(maps) && overlayTexture == old(overlayTexture)
      {
        opacity := opacity[OverlayMaterials[k] := value];
      }
      assert OverlayMaterials[0] == OverlayFront && OverlayMaterials[1] == OverlayBack;
      assert opacity == old(opacity)[OverlayFront := value][OverlayBack := value];
    }
  }
}
