/**
 * `textures`: a growing list of named texture objects, addressed by 32-bit
 * handles, each owning a GL texture it can drop and recreate from its file.
 */
module TextureRegistry {
  import opened Wrappers
  import opened TextureUpload

  /** `texture_handle`: a 32-bit index into the list of texture objects. */
  datatype Handle = Handle(index: int)

  const HandleRange := 0x1_0000_0000

  /** `texture_object`: a name, an optional file, display options and the texture built from them. */
  class TextureObject {
    const name: string
    const filename: string
    /** The owned texture; null once released. */
    var tex: Texture?
    var linear: bool
    var mipmap: bool
    var isOpen: bool

    /** The texture a reload leaves: rebuilt from `filename` with these options, or left empty when there is no file. */
    predicate Reloaded(files: FileSystem)
      reads this, tex
    {
      && tex != null
      && if filename == "" then tex.image == None
         else
           && tex.linear == linear && tex.mipmap == mipmap
           && tex.image == if Loadable(filename, files) then
                             Some(PixelImage(StorageFor(files[filename].channels, 8).value,
                                             files[filename].width, files[filename].height,
                                             SamplingFor(linear, mipmap)))
                           else None
    }

    /** A new entry: the options start as linear with mipmaps and closed, with a fresh, empty texture. */
    constructor (name: string, filename: string)
      ensures this.name == name && this.filename == filename
      ensures linear && mipmap && !isOpen
      ensures tex != null && fresh(tex) && tex.image == None
    {
      this.name := name;
      this.filename := filename;
      linear, mipmap, isOpen := true, true, false;
      tex := new Texture();
    }

    /** `texture_object::get`: the owned texture, which must not have been released. */
    method Get() returns (t: Texture)
      requires tex != null
      ensures t == tex
    {
      t := tex;
    }

    /** `texture_object::release`: drops the texture and changes nothing else. */
    method Release()
      modifies this
      ensures tex == null
      ensures linear == old(linear) && mipmap == old(mipmap) && isOpen == old(isOpen)
    {
      tex := null;
    }

    /**
     * `texture_object::reload`: replaces the texture with a fresh one and, when
     * there is a file, passes on the options and uploads the file; a failed
     * upload propagates, leaving the fresh texture empty.
     */
    method Reload(files: FileSystem) returns (r: Outcome<string>)
      modifies this
      ensures tex != null && fresh(tex) && Reloaded(files)
      ensures linear == old(linear) && mipmap == old(mipmap) && isOpen == old(isOpen)
      ensures r.Pass? <==> filename == "" || Loadable(filename, files)
      ensures r.Fail? ==> r.error == if filename in files then UnsupportedFormat else FileNotFound
    {
      var t := new Texture();
      tex := t;
      r := Pass;
      if filename != "" {
        t.SetOptions(linear, mipmap);
        var calls;
        r, calls := t.UploadFile(filename, files);
      }
    }
  }

  /** `textures`: the texture objects in the order they were added. */
  class Textures {
    var tos: seq<TextureObject>

    /** Every entry is a separate object, as each was created by its own `add_texture`. */
    predicate Distinct()
      reads this
    {
      forall i, j :: 0 <= i < j < |tos| ==> tos[i] != tos[j]
    }

    constructor ()
      ensures tos == [] && Distinct()
    {
      tos := [];
    }

    /**
     * `textures::add_texture(name, filename)`: appends a new texture object and
     * returns its position, narrowed to the 32-bit handle.
     */
    method AddTexture(name: string, filename: string) returns (h: Handle)
      requires Distinct()
      modifies this
      ensures Distinct()
      ensures |tos| == old(|tos|) + 1 && tos[..old(|tos|)] == old(tos)
      ensures h.index == old(|tos|) % HandleRange
      ensures fresh(tos[old(|tos|)])
      ensures tos[old(|tos|)].name == name && tos[old(|tos|)].filename == filename
      ensures tos[old(|tos|)].linear && tos[old(|tos|)].mipmap && !tos[old(|tos|)].isOpen
      ensures tos[old(|tos|)].tex != null && fresh(tos[old(|tos|)].tex) && tos[old(|tos|)].tex.image == None
    {
      var to := new TextureObject(name, filename);
      tos := tos + [to];
      h := Handle((|tos| - 1) % HandleRange);
    }

    /** `textures::add_texture(name)`: a texture object without a file. */
    method AddNamedTexture(name: string) returns (h: Handle)
      requires Distinct()
      modifies this
      ensures Distinct()
      ensures |tos| == old(|tos|) + 1 && tos[..old(|tos|)] == old(tos)
      ensures h.index == old(|tos|) % HandleRange
      ensures fresh(tos[old(|tos|)])
      ensures tos[old(|tos|)].name == name && tos[old(|tos|)].filename == ""
      ensures tos[old(|tos|)].linear && tos[old(|tos|)].mipmap && !tos[old(|tos|)].isOpen
      ensures tos[old(|tos|)].tex != null && fresh(tos[old(|tos|)].tex) && tos[old(|tos|)].tex.image == None
    {
      h := AddTexture(name, "");
    }

    /** `textures::get`: the texture of the entry the handle names, which must exist and not be released. */
    method Get(h: Handle) returns (t: Texture)
      requires 0 <= h.index < |tos| && tos[h.index].tex != null
      ensures t == tos[h.index].tex
    {
      t := tos[h.index].Get();
    }

    /**
     * `textures::with_texture`: the calls `action` makes run between binding
     * the entry's texture to `slot` and unbinding it.
     */
    method WithTexture(h: Handle, slot: int, action: seq<GlCall>) returns (calls: seq<GlCall>)
      requires 0 <= h.index < |tos| && tos[h.index].tex != null
      ensures |calls| == |action| + 3
      ensures calls[0] == ActiveTexture(slot) && calls[1] == BindTexture(tos[h.index].tex)
      ensures calls[2..|calls| - 1] == action
      ensures calls[|calls| - 1] == BindTexture(null)
    {
      var tex := tos[h.index].Get();
      calls := tex.Bind(slot);
      calls := calls + action;
      calls := calls + tex.Unbind();
    }

    /**
     * `textures::reload_all`: reloads the entries in order; the first failing
     * reload propagates, after that entry got its fresh texture and before the
     * later entries are touched. `reloaded` is the number of entries that
     * reloaded without failing.
     */
    method ReloadAll(files: FileSystem) returns (r: Outcome<string>, reloaded: nat)
      requires Distinct()
      modifies set k | 0 <= k < |tos| :: tos[k]
      ensures tos == old(tos)
      ensures reloaded <= |tos| && (r.Pass? <==> reloaded == |tos|)
      ensures forall k :: 0 <= k < reloaded ==> tos[k].filename == "" || Loadable(tos[k].filename, files)
      ensures r.Fail? ==> !Loadable(tos[reloaded].filename, files) && tos[reloaded].filename != ""
      ensures r.Fail? ==> r.error == if tos[reloaded].filename in files then UnsupportedFormat else FileNotFound
      ensures forall k :: 0 <= k <= reloaded && k < |tos| ==> fresh(tos[k].tex) && tos[k].Reloaded(files)
      ensures forall k :: reloaded < k < |tos| ==> tos[k].tex == old(tos[k].tex)
      ensures forall k :: 0 <= k < |tos| ==>
        tos[k].linear == old(tos[k].linear) && tos[k].mipmap == old(tos[k].mipmap) && tos[k].isOpen == old(tos[k].isOpen)
    {
      reloaded := 0;
      while reloaded < |tos|
        invariant reloaded <= |tos|
        invariant forall k :: 0 <= k < reloaded ==> tos[k].filename == "" || Loadable(tos[k].filename, files)
        invariant forall k :: 0 <= k < reloaded ==> fresh(tos[k].tex) && tos[k].Reloaded(files)
        invariant forall k :: reloaded <= k < |tos| ==> tos[k].tex == old(tos[k].tex)
        invariant forall k :: 0 <= k < |tos| ==>
          tos[k].linear == old(tos[k].linear) && tos[k].mipmap == old(tos[k].mipmap) && tos[k].isOpen == old(tos[k].isOpen)
      {
        var o := tos[reloaded].Reload(files);
        if o.Fail? {
          return o, reloaded;
        }
        reloaded := reloaded + 1;
      }
      r := Pass;
    }
  }
}
