/**
 * The state of the posts page: the selected product, the form, the slot for
 * the post just generated, the saved history (newest first) and the set of
 * history entries shown expanded.
 */
module PostHistory {
  import opened Wrappers
  import opened Lists
  import opened PostPrompt

  /** A generated post as the page keeps it; `createdAt` is the clock reading at generation. */
  datatype GeneratedPost = GeneratedPost(
    id: string, productId: string, form: PostForm,
    prompt: string, content: string, createdAt: int)

  /** The history after `deletePost(id)`: every post with that id goes, the others stay in order. */
  function WithoutPost(posts: seq<GeneratedPost>, id: string): (r: seq<GeneratedPost>)
    ensures |r| <= |posts|
    ensures forall p :: p in r <==> p in posts && p.id != id
  {
    FilterMembers(posts, (p: GeneratedPost) => p.id != id);
    Filter(posts, (p: GeneratedPost) => p.id != id)
  }

  /** Deleting from a history split in two deletes from each part and keeps the parts in order. */
  lemma WithoutPostAppend(a: seq<GeneratedPost>, b: seq<GeneratedPost>, id: string)
    ensures WithoutPost(a + b, id) == WithoutPost(a, id) + WithoutPost(b, id)
  {
    FilterAppend(a, b, (p: GeneratedPost) => p.id != id);
  }

  /** Deleting an id no saved post has leaves the history as it was. */
  lemma WithoutUnknownPost(posts: seq<GeneratedPost>, id: string)
    requires forall p | p in posts :: p.id != id
    ensures WithoutPost(posts, id) == posts
  {
    FilterKeepsAll(posts, (p: GeneratedPost) => p.id != id);
  }

  /** Deleting the same id twice is deleting it once. */
  lemma WithoutPostTwice(posts: seq<GeneratedPost>, id: string)
    ensures WithoutPost(WithoutPost(posts, id), id) == WithoutPost(posts, id)
  {
    FilterIdempotent(posts, (p: GeneratedPost) => p.id != id);
  }

  /** Every post with another id keeps all of its copies; posts with the id keep none. */
  lemma WithoutPostCount(posts: seq<GeneratedPost>, id: string, p: GeneratedPost)
    ensures multiset(WithoutPost(posts, id))[p] == if p.id == id then 0 else multiset(posts)[p]
  {
    FilterCount(posts, (q: GeneratedPost) => q.id != id, p);
  }

  /** Saving post `g` and then deleting its id leaves the older history without that id. */
  lemma DeleteJustSaved(g: GeneratedPost, posts: seq<GeneratedPost>)
    ensures WithoutPost([g] + posts, g.id) == WithoutPost(posts, g.id)
  {
    WithoutPostAppend([g], posts, g.id);
    assert WithoutPost([g], g.id) == [] by {
      assert [g][1..] == [];
    }
  }

  /** The expanded set after `toggleExpanded(id)`. */
  function Toggled(expanded: set<string>, id: string): (r: set<string>)
    ensures id in r <==> id !in expanded
    ensures forall x | x != id :: x in r <==> x in expanded
  {
    if id in expanded then expanded - {id} else expanded + {id}
  }

  /** Toggling the same id twice gives back the set it started from. */
  lemma ToggledTwice(expanded: set<string>, id: string)
    ensures Toggled(Toggled(expanded, id), id) == expanded
  {
  }

  /** Toggles of two different ids do not interfere: their order does not matter. */
  lemma TogglesCommute(expanded: set<string>, x: string, y: string)
    ensures Toggled(Toggled(expanded, x), y) == Toggled(Toggled(expanded, y), x)
  {
  }

  class PostsPage {
    var selected: Option<Product>
    var form: PostForm
    var generated: Option<GeneratedPost>
    var posts: seq<GeneratedPost>
    var expanded: set<string>

    /**
     * The form names the selected product, and every post (in the slot and in
     * the history) records the product id its form was filled in for.
     */
    predicate Valid()
      reads this
    {
      && (selected.Some? ==> form.productId == selected.value.id)
      && (generated.Some? ==> generated.value.productId == generated.value.form.productId)
      && forall p | p in posts :: p.productId == p.form.productId
    }

    /** The page as first shown: nothing selected, the default options, no posts. */
    constructor ()
      ensures Valid()
      ensures selected == None && form == DefaultForm && generated == None
      ensures posts == [] && expanded == {}
    {
      selected := None;
      form := DefaultForm;
      generated := None;
      posts := [];
      expanded := {};
    }

    /** Selecting a product also writes its id into the form. */
    method SelectProduct(product: Product)
      requires Valid()
      modifies this
      ensures Valid()
      ensures selected == Some(product) && form == old(form).(productId := product.id)
      ensures generated == old(generated) && posts == old(posts) && expanded == old(expanded)
    {
      selected := Some(product);
      form := form.(productId := product.id);
    }

    /** One of the form's controls changed: every option is taken from `edited`, the product id is kept. */
    method ChangeOptions(edited: PostForm)
      requires Valid()
      modifies this
      ensures Valid()
      ensures form == edited.(productId := old(form).productId)
      ensures selected == old(selected) && generated == old(generated)
      ensures posts == old(posts) && expanded == old(expanded)
    {
      form := edited.(productId := form.productId);
    }

    /**
     * Generating a post. Without a selected product nothing happens. Otherwise
     * the prompt is built from the product and the form and sent off; `reply`
     * is the model's text, or None when the request failed, in which case the
     * slot is left as it was. `id` and `now` are the clock readings the page
     * takes for the new post.
     */
    method GeneratePost(reply: Option<string>, id: string, now: int) returns (ok: bool)
      requires Valid()
      modifies this
      ensures Valid()
      ensures ok <==> old(selected).Some? && reply.Some?
      ensures ok ==> generated == Some(GeneratedPost(
        id, old(selected).value.id, old(form),
        GeneratePrompt(old(selected).value, old(form)), reply.value, now))
      ensures !ok ==> generated == old(generated)
      ensures selected == old(selected) && form == old(form)
      ensures posts == old(posts) && expanded == old(expanded)
      ensures ok ==> generated.value.productId == selected.value.id == generated.value.form.productId
    {
      if selected == None {
        return false;
      }
      var product := selected.value;
      var prompt := GeneratePrompt(product, form);
      if reply == None {
        return false;
      }
      generated := Some(GeneratedPost(id, product.id, form, prompt, reply.value, now));
      ok := true;
    }

    /**
     * Saving puts the generated post at the front of the history and empties
     * the slot; every saved post still records the product its form named.
     */
    method SavePost()
      requires Valid()
      modifies this
      ensures Valid()
      ensures old(generated).Some? ==> posts == [old(generated).value] + old(posts) && generated == None
      ensures old(generated).None? ==> posts == old(posts) && generated == None
      // part of Valid(), spelled out: every saved post records the product its form named
      ensures forall p | p in posts :: p.productId == p.form.productId
      ensures selected == old(selected) && form == old(form) && expanded == old(expanded)
    {
      if generated.Some? {
        posts := [generated.value] + posts;
        generated := None;
      }
    }

    /** Deleting removes every saved post with the given id. */
    method DeletePost(id: string)
      requires Valid()
      modifies this
      ensures Valid()
      ensures posts == WithoutPost(old(posts), id)
      // part of Valid(), spelled out: every saved post records the product its form named
      ensures forall p | p in posts :: p.productId == p.form.productId
      ensures selected == old(selected) && form == old(form)
      ensures generated == old(generated) && expanded == old(expanded)
    {
      posts := WithoutPost(posts, id);
    }

    /** Expanding or collapsing one history entry. */
    method ToggleExpanded(id: string)
      requires Valid()
      modifies this
      ensures Valid()
      ensures expanded == Toggled(old(expanded), id)
      ensures selected == old(selected) && form == old(form)
      ensures generated == old(generated) && posts == old(posts)
    {
      var next := expanded;
      if id in next {
        next := next - {id};
      } else {
        next := next + {id};
      }
      expanded := next;
    }
  }
}
