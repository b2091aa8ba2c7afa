/**
 * The vendor's product manager: the product list, the add/edit form with its
 * staged image files and already-stored image URLs, the free-plan product
 * limit and the five-image cap, and the all-or-nothing image upload.
 */
module VendorDashboard {
  import opened Backend
  import opened Text
  import Seqs

  /** Products a vendor on the free plan may list. */
  const FREE_PLAN_LIMIT: nat := 5
  /** Images one product may carry (stored URLs plus staged files). */
  const MAX_IMAGES: nat := 5

  /** A row of `products` (the columns the dashboard touches). */
  datatype Product = Product(id: Id, name: string, price: string, category: string, description: string,
                             imageUrls: seq<string>, vendorId: Id, createdAt: string, updatedAt: Option<string>)

  function ProductId(p: Product): Id { p.id }

  /** The form state `newProduct`: the fields of `initialProductState`, plus the id and
      timestamps a product spread into it carries. A null `image_urls` is read as `[]`
      everywhere the dashboard reads it, so it is modelled as the empty list. */
  datatype ProductForm = ProductForm(name: string, price: string, category: string, description: string,
                                     imageUrls: seq<string>, id: Option<Id>, createdAt: Option<string>,
                                     updatedAt: Option<string>)

  const InitialForm := ProductForm("", "", "", "", [], None, None, None)

  /** `{ ...initialProductState, ...product }`. */
  function FormOf(p: Product): ProductForm {
    ProductForm(p.name, p.price, p.category, p.description, p.imageUrls, Some(p.id), Some(p.createdAt), p.updatedAt)
  }

  /** What handleFormSubmit sends: the form without `id`, `created_at` and `updated_at`,
      with the final image list and the vendor's id. */
  datatype ProductPayload = ProductPayload(name: string, price: string, category: string, description: string,
                                           imageUrls: seq<string>, vendorId: Id)

  function Payload(form: ProductForm, uploaded: seq<string>, vendorId: Id): (r: ProductPayload)
    ensures |r.imageUrls| == |form.imageUrls| + |uploaded|
    ensures r.imageUrls[..|form.imageUrls|] == form.imageUrls && r.imageUrls[|form.imageUrls|..] == uploaded
    ensures r.vendorId == vendorId
    ensures (r.name, r.price, r.category, r.description) == (form.name, form.price, form.category, form.description)
  {
    ProductPayload(form.name, form.price, form.category, form.description, form.imageUrls + uploaded, vendorId)
  }

  /** The vendor row the dashboard holds (`vendorProfile`). */
  datatype VendorProfile = VendorProfile(id: Option<Id>, isPremium: bool)

  /** A staged image file. */
  datatype File = File(name: string)

  /** The answer of one storage upload, with the public URL of the stored file. */
  datatype UploadResult = Uploaded(publicUrl: string) | UploadFailed

  datatype Tab = ProductsTab | ProfileTab | SubscriptionTab

  ghost predicate AllUploaded(results: seq<UploadResult>) {
    forall i :: 0 <= i < |results| ==> results[i].Uploaded?
  }

  function PublicUrls(results: seq<UploadResult>): (r: seq<string>)
    requires AllUploaded(results)
    ensures |r| == |results| && forall i :: 0 <= i < |results| ==> r[i] == results[i].publicUrl
  {
    if results == [] then [] else [results[0].publicUrl] + PublicUrls(results[1..])
  }

  /** What handleImageUpload returns: every public URL, in file order, when every upload
      succeeded, and nothing at all when any one of them failed. */
  ghost function UploadedUrls(results: seq<UploadResult>): seq<string> {
    if AllUploaded(results) then PublicUrls(results) else []
  }

  /** The loop of handleImageUpload over the answers of `Promise.all`. */
  method CollectUrls(results: seq<UploadResult>) returns (urls: seq<string>)
    ensures urls == UploadedUrls(results)
    ensures urls == [] || |urls| == |results|
  {
    urls := [];
    if |results| == 0 { return; }
    var i := 0;
    while i < |results|
      invariant 0 <= i <= |results|
      invariant AllUploaded(results[..i]) && urls == PublicUrls(results[..i])
    {
      if results[i].UploadFailed? {
        return [];
      }
      assert results[..i + 1] == results[..i] + [results[i]];
      urls := urls + [results[i].publicUrl];
      i := i + 1;
    }
    assert results[..i] == results;
  }

  /** A failed upload and an empty file list give the same answer, so the submit handler's
      `uploadedImageUrls.length === 0` test with staged files detects exactly a failure. */
  lemma {:induction false} UploadFailureIsEmpty(results: seq<UploadResult>)
    requires results != []
    ensures UploadedUrls(results) == [] <==> !AllUploaded(results)
  {
    if AllUploaded(results) {
      assert |PublicUrls(results)| == |results|;
    }
  }

  class DashboardView {
    var products: seq<Product>
    var vendorProfile: Option<VendorProfile>
    var activeTab: Tab
    var showAddProduct: bool
    var editingProduct: Option<Product>
    var uploading: bool
    var newProduct: ProductForm
    var productImageFiles: seq<File>

    constructor (profile: Option<VendorProfile>, products: seq<Product>)
      ensures vendorProfile == profile && this.products == products && activeTab == ProductsTab
      ensures !showAddProduct && editingProduct == None && !uploading
      ensures newProduct == InitialForm && productImageFiles == []
    {
      vendorProfile, this.products, activeTab := profile, products, ProductsTab;
      showAddProduct, editingProduct, uploading := false, None, false;
      newProduct, productImageFiles := InitialForm, [];
    }

    /** resetForm. */
    method ResetForm()
      modifies this`newProduct, this`productImageFiles, this`editingProduct, this`showAddProduct
      ensures newProduct == InitialForm && productImageFiles == [] && editingProduct == None && !showAddProduct
    {
      newProduct := InitialForm;
      productImageFiles := [];
      editingProduct := None;
      showAddProduct := false;
    }

    /** handleEditProduct: loads a product into the form. */
    method EditProduct(p: Product)
      modifies this`newProduct, this`productImageFiles, this`editingProduct, this`showAddProduct
      ensures editingProduct == Some(p) && newProduct == FormOf(p) && productImageFiles == [] && showAddProduct
    {
      editingProduct := Some(p);
      newProduct := FormOf(p);
      productImageFiles := [];
      showAddProduct := true;
    }

    /** handleFileSelect: stages the picked files after the ones already staged, unless the
        product would then carry more than MAX_IMAGES images. */
    method HandleFileSelect(files: seq<File>) returns (rejected: bool)
      modifies this`productImageFiles
      ensures rejected <==> |newProduct.imageUrls| + |old(productImageFiles)| + |files| > MAX_IMAGES
      ensures productImageFiles == if rejected then old(productImageFiles) else old(productImageFiles) + files
      ensures !rejected ==> |newProduct.imageUrls| + |productImageFiles| <= MAX_IMAGES
    {
      rejected := |newProduct.imageUrls| + |productImageFiles| + |files| > MAX_IMAGES;
      if !rejected {
        productImageFiles := productImageFiles + files;
      }
    }

    /** removeNewImage: drops the staged file at position `index`. */
    method RemoveNewImage(index: int)
      modifies this`productImageFiles
      ensures 0 <= index < |old(productImageFiles)| ==>
                productImageFiles == old(productImageFiles)[..index] + old(productImageFiles)[index + 1..]
      ensures !(0 <= index < |old(productImageFiles)|) ==> productImageFiles == old(productImageFiles)
    {
      productImageFiles := Seqs.RemoveAt(productImageFiles, index);
    }

    /** removeExistingImage: drops every occurrence of `url` from the stored image list. */
    method RemoveExistingImage(url: string)
      modifies this`newProduct
      ensures newProduct == old(newProduct).(imageUrls := Seqs.Without(old(newProduct).imageUrls, (u: string) => u, url))
      ensures forall u :: u in newProduct.imageUrls <==> u in old(newProduct).imageUrls && u != url
    {
      newProduct := newProduct.(imageUrls := Seqs.Without(newProduct.imageUrls, (u: string) => u, url));
    }

    /** handleImageUpload, given one storage answer per file. */
    method HandleImageUpload(results: seq<UploadResult>) returns (urls: seq<string>)
      modifies this`uploading
      ensures urls == UploadedUrls(results)
      ensures uploading == if results == [] then old(uploading) else false
    {
      if |results| == 0 { return []; }
      uploading := true;
      urls := CollectUrls(results);
      uploading := false;
    }

    /** handleFormSubmit, given one storage answer per staged file and the answer of the
        update (when editing) or insert; returns the payload it saved, if it got that far. */
    method HandleFormSubmit(uploads: seq<UploadResult>, reply: Reply<Product>) returns (saved: Option<ProductPayload>)
      requires |uploads| == |productImageFiles|
      modifies this`products, this`activeTab, this`uploading, this`newProduct, this`productImageFiles,
               this`editingProduct, this`showAddProduct
      ensures var noProfile := vendorProfile.None? || !Truthy(vendorProfile.value.id);
              var limited := !noProfile && old(editingProduct).None? && !vendorProfile.value.isPremium
                             && |old(products)| >= FREE_PLAN_LIMIT;
              var uploadFailed := !noProfile && !limited && uploads != [] && !AllUploaded(uploads);
              && (noProfile ==> activeTab == ProfileTab)
              && (limited ==> activeTab == SubscriptionTab)
              && (!noProfile && !limited ==> activeTab == old(activeTab))
              && (saved.None? <==> noProfile || limited || uploadFailed)
              && (saved.Some? ==> saved == Some(Payload(old(newProduct), UploadedUrls(uploads), vendorProfile.value.id.value)))
              && uploading == (if !noProfile && !limited && uploads != [] then false else old(uploading))
      ensures if saved.Some? && reply.Ok? then
                && products == (if old(editingProduct).Some?
                                then Seqs.Replace(old(products), ProductId, old(editingProduct).value.id, reply.value)
                                else [reply.value] + old(products))
                && newProduct == InitialForm && productImageFiles == [] && editingProduct == None && !showAddProduct
              else
                && products == old(products) && newProduct == old(newProduct) && productImageFiles == old(productImageFiles)
                && editingProduct == old(editingProduct) && showAddProduct == old(showAddProduct)
    {
      saved := None;
      if vendorProfile.None? || !Truthy(vendorProfile.value.id) {
        activeTab := ProfileTab;
        return;
      }
      if editingProduct.None? && !vendorProfile.value.isPremium && |products| >= FREE_PLAN_LIMIT {
        activeTab := SubscriptionTab;
        return;
      }
      var uploaded: seq<string> := [];
      if |productImageFiles| > 0 {
        uploaded := HandleImageUpload(uploads);
        if |uploaded| == 0 && |productImageFiles| > 0 {
          UploadFailureIsEmpty(uploads);
          return;
        }
        UploadFailureIsEmpty(uploads);
      }
      var payload := Payload(newProduct, uploaded, vendorProfile.value.id.value);
      saved := Some(payload);
      if reply.Ok? {
        if editingProduct.Some? {
          products := Seqs.Replace(products, ProductId, editingProduct.value.id, reply.value);
        } else {
          products := [reply.value] + products;
        }
        ResetForm();
      }
    }

    /** handleDeleteProduct with the answer of the delete. */
    method HandleDeleteProduct(productId: Id, reply: Outcome)
      modifies this`products
      ensures products == if reply == Done then Seqs.Without(old(products), ProductId, productId) else old(products)
    {
      if reply == Done {
        products := Seqs.Without(products, ProductId, productId);
      }
    }
  }
}
